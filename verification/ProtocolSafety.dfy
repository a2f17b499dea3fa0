/** What every interleaving of the workflow protocol keeps: completion in declared order, one owner
    per step, at-most-once success, and no passage through a gate without a stored approval. */
module ProtocolSafety {
  import opened Wrappers
  import opened States
  import opened Protocol

  // ----- The invariant of the stored run -----

  ghost predicate Shaped(c: Core) {
    && |c.steps| == |c.successes| == |c.faults| == |c.names|
    && forall i :: 0 <= i < |c.names| ==> c.steps[i].name == c.names[i]
  }

  /** The completion log is an initial segment of the step indices. */
  ghost predicate Ordered(c: Core) {
    && |c.log| <= |c.names|
    && forall j :: 0 <= j < |c.log| ==> c.log[j] == j
  }

  /** A step record at index `i`, when the first `done` steps have completed. */
  ghost predicate StatusFits(done: nat, step: Step, i: nat) {
    && (step.status == StepStatus.Succeeded ==> i < done)
    && step.status != Compensated && step.status != Skipped
    && (IsGate(step.name) ==> step.status == Pending || step.status == StepStatus.Succeeded)
  }

  ghost predicate StepsFit(c: Core)
    requires Shaped(c)
  {
    forall i :: 0 <= i < |c.names| ==> StatusFits(|c.log|, c.steps[i], i)
  }

  ghost predicate IdemFits(c: Core) {
    forall i :: i in c.idem ==> i < |c.log| && i < |c.names| && !IsGate(c.names[i])
  }

  ghost predicate CountsFit(c: Core)
    requires Shaped(c)
  {
    forall i :: 0 <= i < |c.names| ==>
      && c.successes[i] <= c.faults[i] + 1
      && (c.steps[i].status == Pending || c.steps[i].status == Failed ==> c.successes[i] <= c.faults[i])
      && (IsGate(c.names[i]) ==> c.successes[i] == 0)
      && (!IsGate(c.names[i]) ==> (c.successes[i] > 0 <==> i < |c.log|))
  }

  ghost predicate CoreOk(c: Core) {
    && Shaped(c) && Ordered(c) && StepsFit(c) && IdemFits(c) && CountsFit(c)
    && (c.status == RunStatus.Succeeded ==> |c.log| == |c.names|)
  }

  // ----- The invariant of the approvals desk -----

  ghost predicate GatesFit(names: seq<StepName>, done: nat, d: Desk) {
    && (forall g :: g in d.gates ==>
          && g < d.nextId && d.gates[g].step < |names| && d.gates[g].step <= done
          && IsGate(names[d.gates[g].step]))
    && (forall t :: t in d.tokens ==>
          && t < d.nextId && d.tokens[t].gate in d.gates
          && d.tokens[t].step == d.gates[d.tokens[t].gate].step)
  }

  /** An approve decision for gate step `i` is stored. */
  ghost predicate ApprovalStored(decisions: seq<Decision>, i: nat) {
    exists k :: 0 <= k < |decisions| && decisions[k].approve && decisions[k].step == i
  }

  /** Every completed gate has a stored approval. */
  ghost predicate GatesApproved(names: seq<StepName>, done: nat, decisions: seq<Decision>) {
    forall i :: 0 <= i < done && i < |names| && IsGate(names[i]) ==> ApprovalStored(decisions, i)
  }

  /** Every stored decision is about its gate and was made by an actor that gate admits. */
  ghost predicate DecisionsFit(d: Desk) {
    forall k :: 0 <= k < |d.decisions| ==>
      && d.decisions[k].gate in d.gates
      && d.decisions[k].step == d.gates[d.decisions[k].gate].step
      && MayDecide(d.decisions[k].actor, d.gates[d.decisions[k].gate].role)
  }

  ghost predicate DeskOk(names: seq<StepName>, done: nat, d: Desk) {
    GatesFit(names, done, d) && GatesApproved(names, done, d.decisions) && DecisionsFit(d)
  }

  // ----- Standing of workers and resolvers -----

  predicate Owns(p: Phase, i: nat) {
    match p
    case Handling(j, _) => i == j
    case Reserve(j, _, _) => i == j
    case Record(j, _, _) => i == j
    case Commit(j, _, _) => i == j
    case Fail(j, _, _) => i == j
    case _ => false
  }

  /** A worker's private copy may be stale, but from `from` on it claims no completion that did not
      happen. */
  ghost predicate SnapFits(c: Core, snap: seq<Step>, from: nat) {
    && |snap| == |c.names|
    && forall j :: 0 <= j < |snap| ==>
         snap[j].name == c.names[j] && (from <= j ==> StatusFits(|c.log|, snap[j], j))
  }

  /** The worker stands at plain step `i`, everything before it completed. */
  ghost predicate Reached(c: Core, i: nat, snap: seq<Step>) {
    i < |c.names| && i <= |c.log| && !IsGate(c.names[i]) && SnapFits(c, snap, i + 1)
  }

  ghost predicate Holds(c: Core, i: nat, snap: seq<Step>)
    requires Shaped(c)
  {
    Reached(c, i, snap) && c.steps[i].status == StepStatus.Running
  }

  ghost predicate PhaseFits(c: Core, d: Desk, p: Phase)
    requires Shaped(c)
  {
    match p
    case Visit(i, snap) => i <= |c.names| && i <= |c.log| && SnapFits(c, snap, i)
    case Claim(i, snap) => Reached(c, i, snap)
    case Handling(i, snap) => Holds(c, i, snap) && c.successes[i] <= c.faults[i]
    case Reserve(i, snap, _) => Holds(c, i, snap) && i < |c.log|
    case Record(i, snap, _) => Holds(c, i, snap) && i < |c.log|
    case Commit(i, snap, _) => Holds(c, i, snap) && i < |c.log|
    case Fail(i, snap, _) => Holds(c, i, snap) && c.successes[i] <= c.faults[i]
    case OpenGate(i) => i < |c.names| && i <= |c.log| && IsGate(c.names[i])
    case IssueTokens(g, _) => g in d.gates
    case Finish => |c.log| == |c.names|
    case _ => true
  }

  /** `seen` is a copy of the gate that token `t` answers, possibly with an outdated status. */
  ghost predicate Saw(d: Desk, t: nat, seen: Gate) {
    && t in d.tokens && d.tokens[t].gate in d.gates && d.tokens[t].step == seen.step
    && d.gates[d.tokens[t].gate].step == seen.step && d.gates[d.tokens[t].gate].role == seen.role
  }

  ghost predicate ResolutionFits(d: Desk, q: Resolution) {
    match q
    case ReadGate(t, _, _) => t in d.tokens
    case Decide(t, _, actor, seen) => Saw(d, t, seen) && MayDecide(actor, seen.role)
    case Flip(t, approve, seen) => Saw(d, t, seen)
      && (approve ==> ApprovalStored(d.decisions, d.tokens[t].step))
    case Move(t, approve) => t in d.tokens && (approve ==> ApprovalStored(d.decisions, d.tokens[t].step))
    case Advance(t) => t in d.tokens && ApprovalStored(d.decisions, d.tokens[t].step)
    case _ => true
  }

  /** No two workers are inside the same step. */
  ghost predicate Exclusive(workers: map<nat, Phase>) {
    forall v, w, i: nat ::
      (v in workers && w in workers && Owns(workers[v], i) && Owns(workers[w], i)) ==> v == w
  }

  ghost predicate Inv(s: State) {
    && CoreOk(s.core) && DeskOk(s.core.names, |s.core.log|, s.desk) && Exclusive(s.workers)
    && (forall w :: w in s.workers ==> PhaseFits(s.core, s.desk, s.workers[w]))
    && (forall r :: r in s.resolvers ==> ResolutionFits(s.desk, s.resolvers[r]))
  }

  lemma InitInv(names: seq<StepName>)
    ensures Inv(Init(names))
  {
  }

  // ----- What a move may change -----

  /** The stored run evolves: completions accumulate, and only step `i` is written or counted. */
  ghost predicate CoreMoves(c: Core, c': Core, i: nat) {
    && CoreOk(c) && CoreOk(c') && c'.names == c.names && |c.log| <= |c'.log|
    && forall j :: 0 <= j < |c.names| && j != i ==>
         c'.steps[j] == c.steps[j] && c'.successes[j] == c.successes[j] && c'.faults[j] == c.faults[j]
  }

  /** The desk evolves: gates, tokens and decisions accumulate. */
  ghost predicate DeskMoves(d: Desk, d': Desk) {
    && (forall g :: g in d.gates ==>
          g in d'.gates && d'.gates[g].step == d.gates[g].step && d'.gates[g].role == d.gates[g].role)
    && (forall t :: t in d.tokens ==>
          t in d'.tokens && d'.tokens[t].step == d.tokens[t].step && d'.tokens[t].gate == d.tokens[t].gate)
    && d.decisions <= d'.decisions
  }

  lemma ApprovalKept(before: seq<Decision>, after: seq<Decision>, i: nat)
    requires before <= after && ApprovalStored(before, i)
    ensures ApprovalStored(after, i)
  {
    var k :| 0 <= k < |before| && before[k].approve && before[k].step == i;
    assert after[k] == before[k];
  }

  lemma ResolutionKept(d: Desk, d': Desk, q: Resolution)
    requires ResolutionFits(d, q) && DeskMoves(d, d')
    ensures ResolutionFits(d', q)
  {
    match q
    case Flip(t, approve, _) => if approve { ApprovalKept(d.decisions, d'.decisions, d.tokens[t].step); }
    case Move(t, approve) => if approve { ApprovalKept(d.decisions, d'.decisions, d.tokens[t].step); }
    case Advance(t) => ApprovalKept(d.decisions, d'.decisions, d.tokens[t].step);
    case _ =>
  }

  /** A worker that is not inside the written step keeps its standing. */
  lemma PhaseKept(c: Core, d: Desk, c': Core, d': Desk, p: Phase, i: nat)
    requires CoreMoves(c, c', i) && DeskMoves(d, d') && !Owns(p, i) && PhaseFits(c, d, p)
    ensures PhaseFits(c', d', p)
  {
  }

  /** A worker's move is good: it writes at most step `i` and ends in good standing. */
  ghost predicate GoodMove(c: Core, d: Desk, m: Move, i: nat) {
    && CoreMoves(c, m.core, i) && DeskMoves(d, m.desk)
    && DeskOk(m.core.names, |m.core.log|, m.desk)
    && PhaseFits(m.core, m.desk, m.phase)
    && forall j: nat :: Owns(m.phase, j) ==> j == i
  }

  /** A good move keeps the invariant when no other worker is inside the step it writes. */
  lemma MoveInv(s: State, w: nat, m: Move, i: nat)
    requires Inv(s) && GoodMove(s.core, s.desk, m, i)
    requires forall v :: v in s.workers && v != w ==> !Owns(s.workers[v], i)
    ensures Inv(State(m.core, m.desk, s.workers[w := m.phase], s.resolvers))
  {
    forall v | v in s.workers && v != w
      ensures PhaseFits(m.core, m.desk, s.workers[v])
    {
      PhaseKept(s.core, s.desk, m.core, m.desk, s.workers[v], i);
    }
    ResolutionsKept(s.desk, m.desk, s.resolvers);
  }

  // ----- Each move of a worker is good -----

  lemma LogMember(c: Core, i: nat)
    requires Ordered(c)
    ensures i in c.log <==> i < |c.log|
  {
    if i < |c.log| {
      assert c.log[i] == i;
    }
  }

  /** Overwriting one step, within the table and the counts. */
  lemma WriteOk(c: Core, i: nat, step: Step)
    requires CoreOk(c) && i < |c.names| && step.name == c.names[i] && StatusFits(|c.log|, step, i)
    requires step.status == Pending || step.status == Failed ==> c.successes[i] <= c.faults[i]
    ensures CoreMoves(c, WriteStep(c, i, step), i)
  {
  }

  lemma ClaimGood(c: Core, d: Desk, i: nat, snap: seq<Step>)
    requires CoreOk(c) && DeskOk(c.names, |c.log|, d) && PhaseFits(c, d, Claim(i, snap))
    ensures MayWrite(c, i, StepStatus.Running) ==> GoodMove(c, d, ClaimStep(c, d, i, snap), i)
    ensures !MayWrite(c, i, StepStatus.Running) ==> ClaimStep(c, d, i, snap) == Made(c, d, Gone)
  {
    WriteOk(c, i, snap[i].(status := StepStatus.Running));
  }

  lemma ReturnOk(c: Core, i: nat)
    requires CoreOk(c) && i < |c.names| && i <= |c.log| && !IsGate(c.names[i])
    requires c.successes[i] <= c.faults[i] && c.steps[i].status == StepStatus.Running
    ensures CoreMoves(c, Complete(c, i).(successes := Bump(c.successes, i)), i)
    ensures |Complete(c, i).log| > i
  {
    LogMember(c, i);
  }

  lemma LogGrows(c: Core, d: Desk, i: nat)
    requires DeskOk(c.names, |c.log|, d) && i < |c.names| && i == |c.log|
    requires IsGate(c.names[i]) ==> ApprovalStored(d.decisions, i)
    ensures DeskOk(c.names, |c.log| + 1, d)
  {
  }

  lemma ReturnGood(c: Core, d: Desk, i: nat, snap: seq<Step>, out: Output)
    requires CoreOk(c) && DeskOk(c.names, |c.log|, d) && PhaseFits(c, d, Handling(i, snap))
    ensures GoodMove(c, d, Return(c, d, i, snap, out), i)
  {
    LogMember(c, i);
    ReturnOk(c, i);
    if i == |c.log| {
      LogGrows(c, d, i);
    }
  }

  lemma IdemFaultGood(c: Core, d: Desk, i: nat, snap: seq<Step>)
    requires CoreOk(c) && DeskOk(c.names, |c.log|, d) && Holds(c, i, snap) && i < |c.log|
    ensures GoodMove(c, d, IdemFault(c, d, i, snap), i)
  {
  }

  lemma IdemWriteOk(c: Core, i: nat, out: Output)
    requires CoreOk(c) && i < |c.log| && !IsGate(c.names[i])
    ensures CoreMoves(c, ReserveKey(c, i), i) && CoreMoves(c, c.(idem := c.idem[i := out]), i)
  {
  }

  lemma ReserveGood(c: Core, d: Desk, i: nat, snap: seq<Step>, out: Output)
    requires CoreOk(c) && DeskOk(c.names, |c.log|, d) && Holds(c, i, snap) && i < |c.log|
    ensures GoodMove(c, d, Made(ReserveKey(c, i), d, Record(i, snap, out)), i)
    ensures GoodMove(c, d, Made(c.(idem := c.idem[i := out]), d, Commit(i, snap, out)), i)
  {
    IdemWriteOk(c, i, out);
  }

  lemma CommitGood(c: Core, d: Desk, i: nat, snap: seq<Step>, out: Output)
    requires CoreOk(c) && DeskOk(c.names, |c.log|, d) && PhaseFits(c, d, Commit(i, snap, out))
    ensures GoodMove(c, d, CommitStep(c, d, i, snap, out), i)
  {
    WriteOk(c, i, snap[i].(status := StepStatus.Succeeded, output := Some(out),
                           attempt := snap[i].attempt + 1));
  }

  lemma FailGood(c: Core, d: Desk, i: nat, snap: seq<Step>, retryable: bool)
    requires CoreOk(c) && DeskOk(c.names, |c.log|, d) && PhaseFits(c, d, Fail(i, snap, retryable))
    ensures GoodMove(c, d, FailStep(c, d, i, snap, retryable), i)
  {
    WriteOk(c, i, snap[i].(status := Failed, attempt := snap[i].attempt + 1));
  }

  lemma GateAdded(names: seq<StepName>, done: nat, d: Desk, i: nat, role: Standing)
    requires DeskOk(names, done, d) && i < |names| && i <= done && IsGate(names[i])
    ensures DeskOk(names, done, AddGate(d, i, role)) && DeskMoves(d, AddGate(d, i, role))
  {
  }

  lemma OpenGateGood(c: Core, d: Desk, i: nat, role: Standing, count: nat)
    requires CoreOk(c) && DeskOk(c.names, |c.log|, d) && PhaseFits(c, d, OpenGate(i))
    ensures GoodMove(c, d, Made(c, AddGate(d, i, role), IssueTokens(d.nextId, count)), |c.names|)
  {
    GateAdded(c.names, |c.log|, d, i, role);
  }

  lemma IssueTokenGood(c: Core, d: Desk, gate: nat, left: nat)
    requires CoreOk(c) && DeskOk(c.names, |c.log|, d) && gate in d.gates
    ensures GoodMove(c, d, Made(c, AddToken(d, gate), IssueTokens(gate, left)), |c.names|)
  {
  }

  /** A move that changes no more than the run status and the phase. */
  lemma QuietGood(c: Core, d: Desk, to: RunStatus, p: Phase, i: nat)
    requires CoreOk(c) && DeskOk(c.names, |c.log|, d) && PhaseFits(c, d, p)
    requires to == c.status || to != RunStatus.Succeeded || |c.log| == |c.names|
    requires forall j: nat :: Owns(p, j) ==> j == i
    ensures GoodMove(c, d, Made(c.(status := to), d, p), i)
  {
  }

  /** The step a worker's move may write: its own while it is inside one or claims one, none otherwise. */
  function Target(c: Core, p: Phase): nat {
    match p
    case Claim(i, _) => if MayWrite(c, i, StepStatus.Running) then i else |c.names|
    case Handling(i, _) => i
    case Reserve(i, _, _) => i
    case Record(i, _, _) => i
    case Commit(i, _, _) => i
    case Fail(i, _, _) => i
    case _ => |c.names|
  }

  predicate Inside(p: Phase) {
    p.Claim? || p.Handling? || p.Reserve? || p.Record? || p.Commit? || p.Fail?
  }

  lemma InsideGood(c: Core, d: Desk, p: Phase, choice: Choice)
    requires CoreOk(c) && DeskOk(c.names, |c.log|, d) && PhaseFits(c, d, p) && Inside(p)
    ensures GoodMove(c, d, TickWorker(c, d, p, choice), Target(c, p))
  {
    hide GoodMove, CoreOk, DeskOk;
    var t := Target(c, p);
    match p
    case Claim(i, snap) =>
      ClaimGood(c, d, i, snap);
      QuietGood(c, d, c.status, Gone, t);
    case Handling(i, snap) =>
      if choice.Returned? {
        ReturnGood(c, d, i, snap, choice.out);
      } else {
        QuietGood(c, d, c.status, TickWorker(c, d, p, choice).phase, t);
      }
    case Reserve(i, snap, out) =>
      IdemFaultGood(c, d, i, snap);
      ReserveGood(c, d, i, snap, out);
    case Record(i, snap, out) =>
      IdemFaultGood(c, d, i, snap);
      ReserveGood(c, d, i, snap, out);
    case Commit(i, snap, out) => CommitGood(c, d, i, snap, out);
    case Fail(i, snap, retryable) => FailGood(c, d, i, snap, retryable);
  }

  predicate Issues(p: Phase, choice: Choice) {
    (p.OpenGate? && choice.Channels?) || (p.IssueTokens? && p.left > 0)
  }

  lemma OutsideQuiet(c: Core, d: Desk, p: Phase, choice: Choice)
    requires CoreOk(c) && PhaseFits(c, d, p) && !Inside(p) && !Issues(p, choice)
    ensures var m := TickWorker(c, d, p, choice);
      && m == Made(c.(status := m.core.status), d, m.phase)
      && (m.core.status == c.status || m.core.status != RunStatus.Succeeded || |c.log| == |c.names|)
      && PhaseFits(c, d, m.phase) && !exists j: nat :: Owns(m.phase, j)
  {
    hide CountsFit;
  }

  lemma OutsideGood(c: Core, d: Desk, p: Phase, choice: Choice)
    requires CoreOk(c) && DeskOk(c.names, |c.log|, d) && PhaseFits(c, d, p) && !Inside(p)
    ensures GoodMove(c, d, TickWorker(c, d, p, choice), Target(c, p))
  {
    if Issues(p, choice) {
      if p.OpenGate? {
        OpenGateGood(c, d, p.i, choice.role, choice.count);
      } else {
        IssueTokenGood(c, d, p.gate, p.left - 1);
      }
    } else {
      var m := TickWorker(c, d, p, choice);
      OutsideQuiet(c, d, p, choice);
      QuietGood(c, d, m.core.status, m.phase, |c.names|);
    }
  }

  lemma WorkerInv(s: State, w: nat, choice: Choice)
    requires Inv(s) && w in s.workers
    ensures Inv(MoveWorker(s, w, choice))
  {
    hide GoodMove, TickWorker, DeskOk;
    var p := s.workers[w];
    var i := Target(s.core, p);
    if Inside(p) {
      InsideGood(s.core, s.desk, p, choice);
    } else {
      OutsideGood(s.core, s.desk, p, choice);
    }
    forall v | v in s.workers && v != w
      ensures !Owns(s.workers[v], i)
    {
      assert PhaseFits(s.core, s.desk, s.workers[v]);
      if Owns(p, i) {
        assert !Owns(s.workers[v], i);
      }
    }
    MoveInv(s, w, TickWorker(s.core, s.desk, p, choice), i);
  }

  // ----- Resolvers and the environment -----

  /** A gate step counts as completed when its approval is stored and everything before it is done. */
  lemma GateCompleted(c: Core, i: nat)
    requires CoreOk(c) && i < |c.names| && i <= |c.log| && IsGate(c.names[i])
    ensures CoreMoves(c, Complete(c, i), |c.names|) && i < |Complete(c, i).log|
  {
    LogMember(c, i);
  }

  lemma AdvanceOk(c: Core, d: Desk, t: nat)
    requires CoreOk(c) && DeskOk(c.names, |c.log|, d) && ResolutionFits(d, Advance(t))
    ensures var m := AdvanceGate(c, d, t);
      && CoreMoves(c, m.core, d.tokens[t].step) && m.desk == d
      && DeskOk(m.core.names, |m.core.log|, d)
  {
    var i := d.tokens[t].step;
    LogMember(c, i);
    GateCompleted(c, i);
    var done := Complete(c, i);
    WriteOk(done, i, c.steps[i].(status := StepStatus.Succeeded));
    if i == |c.log| {
      LogGrows(c, d, i);
    }
  }

  lemma DecisionSaved(c: Core, d: Desk, made: Decision)
    requires DeskOk(c.names, |c.log|, d)
    requires made.gate in d.gates && made.step == d.gates[made.gate].step
    requires MayDecide(made.actor, d.gates[made.gate].role)
    ensures DeskOk(c.names, |c.log|, d.(decisions := d.decisions + [made]))
    ensures made.approve ==> ApprovalStored(d.decisions + [made], made.step)
  {
    var after := d.decisions + [made];
    assert after[|d.decisions|] == made;
    forall i | 0 <= i < |c.log| && i < |c.names| && IsGate(c.names[i])
      ensures ApprovalStored(after, i)
    {
      ApprovalKept(d.decisions, after, i);
    }
  }

  lemma TokenSpent(c: Core, d: Desk, t: nat)
    requires DeskOk(c.names, |c.log|, d) && t in d.tokens
    ensures var d' := d.(tokens := d.tokens[t := d.tokens[t].(used := true)]);
      DeskMoves(d, d') && DeskOk(c.names, |c.log|, d')
  {
  }

  lemma GateFlipped(c: Core, d: Desk, t: nat, seen: Gate, status: GateStatus)
    requires DeskOk(c.names, |c.log|, d) && Saw(d, t, seen)
    ensures var d' := d.(gates := d.gates[d.tokens[t].gate := seen.(status := status)]);
      DeskMoves(d, d') && DeskOk(c.names, |c.log|, d')
  {
  }

  lemma DecideStep(c: Core, d: Desk, t: nat, approve: bool, actor: Standing, seen: Gate)
    requires DeskOk(c.names, |c.log|, d) && ResolutionFits(d, Decide(t, approve, actor, seen))
    ensures var m := SaveDecision(c, d, t, approve, actor, seen);
      DeskMoves(d, m.desk) && DeskOk(c.names, |c.log|, m.desk) && ResolutionFits(m.desk, m.next)
  {
    DecisionSaved(c, d, Decision(d.tokens[t].gate, d.tokens[t].step, approve, actor, t));
  }

  lemma FlipStep(c: Core, d: Desk, t: nat, approve: bool, seen: Gate)
    requires DeskOk(c.names, |c.log|, d) && ResolutionFits(d, Flip(t, approve, seen))
    ensures var m := FlipGate(c, d, t, approve, seen);
      DeskMoves(d, m.desk) && DeskOk(c.names, |c.log|, m.desk) && ResolutionFits(m.desk, m.next)
  {
    hide DeskOk;
    GateFlipped(c, d, t, seen, if approve then Approved else RejectedGate);
  }

  lemma ReadStep(c: Core, d: Desk, t: nat, approve: bool, actor: Standing)
    requires DeskOk(c.names, |c.log|, d) && t in d.tokens
    ensures var m := InspectGate(c, d, t, approve, actor);
      m.desk == d && m.core == c && ResolutionFits(d, m.next)
  {
    hide GatesApproved, DecisionsFit, MayDecide;
  }

  lemma DeskStays(d: Desk)
    ensures DeskMoves(d, d)
  {
  }

  lemma DeskStep(c: Core, d: Desk, q: Resolution)
    requires DeskOk(c.names, |c.log|, d) && ResolutionFits(d, q) && !q.Advance?
    ensures var m := TickResolver(c, d, q);
      && DeskMoves(d, m.desk) && DeskOk(c.names, |c.log|, m.desk) && ResolutionFits(m.desk, m.next)
  {
    hide DeskOk, DeskMoves, SaveDecision, FlipGate, InspectGate;
    DeskStays(d);
    match q
    case Spend(t, _, _) =>
      if t in d.tokens {
        TokenSpent(c, d, t);
      }
    case ReadGate(t, approve, actor) => ReadStep(c, d, t, approve, actor);
    case Decide(t, approve, actor, seen) => DecideStep(c, d, t, approve, actor, seen);
    case Flip(t, approve, seen) => FlipStep(c, d, t, approve, seen);
    case _ =>
  }

  lemma ResolverMoves(c: Core, d: Desk, q: Resolution, i: nat)
    requires CoreOk(c) && DeskOk(c.names, |c.log|, d) && ResolutionFits(d, q)
    requires i == if q.Advance? then d.tokens[q.token].step else |c.names|
    ensures var m := TickResolver(c, d, q);
      && CoreMoves(c, m.core, i) && DeskMoves(d, m.desk)
      && DeskOk(m.core.names, |m.core.log|, m.desk) && ResolutionFits(m.desk, m.next)
  {
    hide DeskOk;
    if q.Advance? {
      AdvanceOk(c, d, q.token);
    } else {
      DeskStep(c, d, q);
    }
  }

  /** Nobody is inside a gate step. */
  lemma OwnerAtTask(c: Core, d: Desk, p: Phase, i: nat)
    requires CoreOk(c) && PhaseFits(c, d, p) && Owns(p, i)
    ensures i < |c.names| && !IsGate(c.names[i])
  {
  }

  /** Every worker keeps its standing when step `i` is no handler step. */
  lemma WorkersKept(s: State, c': Core, d': Desk, i: nat)
    requires Inv(s) && CoreMoves(s.core, c', i) && DeskMoves(s.desk, d')
    requires i < |s.core.names| ==> IsGate(s.core.names[i])
    ensures forall w :: w in s.workers ==> PhaseFits(c', d', s.workers[w])
  {
    forall w | w in s.workers
      ensures PhaseFits(c', d', s.workers[w])
    {
      if Owns(s.workers[w], i) {
        OwnerAtTask(s.core, s.desk, s.workers[w], i);
      }
      PhaseKept(s.core, s.desk, c', d', s.workers[w], i);
    }
  }

  lemma ResolutionsKept(d: Desk, d': Desk, resolvers: map<nat, Resolution>)
    requires DeskMoves(d, d')
    requires forall r :: r in resolvers ==> ResolutionFits(d, resolvers[r])
    ensures forall r :: r in resolvers ==> ResolutionFits(d', resolvers[r])
  {
    forall r | r in resolvers
      ensures ResolutionFits(d', resolvers[r])
    {
      ResolutionKept(d, d', resolvers[r]);
    }
  }

  lemma ResolverInv(s: State, r: nat)
    requires Inv(s) && r in s.resolvers
    ensures Inv(MoveResolver(s, r))
  {
    var q := s.resolvers[r];
    assert ResolutionFits(s.desk, q);
    var m := TickResolver(s.core, s.desk, q);
    var i := if q.Advance? then s.desk.tokens[q.token].step else |s.core.names|;
    ResolverMoves(s.core, s.desk, q, i);
    WorkersKept(s, m.core, m.desk, i);
    ResolutionsKept(s.desk, m.desk, s.resolvers);
  }

  /** The idempotency store losing a record, or an operator moving the run, disturbs nobody. */
  lemma AmbientInv(s: State, c': Core)
    requires Inv(s) && CoreMoves(s.core, c', |s.core.names|) && |c'.log| == |s.core.log|
    ensures Inv(s.(core := c'))
  {
    WorkersKept(s, c', s.desk, |s.core.names|);
  }

  lemma NextInv(s: State, e: Event)
    requires Inv(s)
    ensures Inv(Next(s, e))
  {
    hide TickWorker, TickResolver, DeskOk;
    match e
    case Tick(w, choice) => if w in s.workers { WorkerInv(s, w, choice); }
    case Resolve(r) => if r in s.resolvers { ResolverInv(s, r); }
    case Forget(i) => AmbientInv(s, s.core.(idem := s.core.idem - {i}));
    case Operator(to) =>
      if to == Cancelled || to == RunStatus.Running {
        AmbientInv(s, SetStatus(s.core, to));
      }
    case _ =>
  }

  lemma {:induction false} ExecInv(s: State, events: seq<Event>)
    requires Inv(s)
    ensures Inv(Exec(s, events))
    decreases |events|
  {
    if events != [] {
      NextInv(s, events[0]);
      ExecInv(Next(s, events[0]), events[1..]);
    }
  }
}
