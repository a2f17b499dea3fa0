/** What every sequential history of starts, executions, gate resolutions and sweeps keeps. */
module WorkflowHistory {
  import opened Wrappers
  import opened States
  import opened Workflow
  import opened WorkflowRuns
  import opened WorkflowEffects

  // ----- The approvals desk -----

  /** Ids in use lie below the id source, and a token repeats its gate's run and step. */
  ghost predicate Issued(d: Desk) {
    && (forall g :: g in d.gates ==> g < d.nextId)
    && (forall t :: t in d.tokens ==>
          && t < d.nextId && d.tokens[t].gate in d.gates
          && d.tokens[t].run == d.gates[d.tokens[t].gate].run
          && d.tokens[t].step == d.gates[d.tokens[t].gate].step)
  }

  /** Decisions and non-pending gates correspond one to one; decisions carry distinct used tokens of
      their own gate and were made by an actor with exactly the required role. */
  ghost predicate Decided(d: Desk) {
    && (forall k :: 0 <= k < |d.decisions| ==> DecisionFits(d, d.decisions[k]))
    && (forall j, k :: 0 <= j < k < |d.decisions| ==>
          d.decisions[j].gate != d.decisions[k].gate && d.decisions[j].token != d.decisions[k].token)
    && (forall g :: g in d.gates && d.gates[g].status != GatePending ==> HasDecision(d.decisions, g))
  }

  ghost predicate DecisionFits(d: Desk, made: ApprovalDecision) {
    && made.gate in d.gates && made.token in d.tokens
    && d.gates[made.gate].status == (if made.approve then Approved else RejectedGate)
    && d.tokens[made.token].used && d.tokens[made.token].gate == made.gate
    && made.run == d.gates[made.gate].run && made.step == d.gates[made.gate].step
    && MayDecide(made.actor, d.gates[made.gate].role)
  }

  ghost predicate HasDecision(decisions: seq<ApprovalDecision>, g: nat) {
    exists k :: 0 <= k < |decisions| && decisions[k].gate == g
  }

  ghost predicate DeskInv(d: Desk) {
    Issued(d) && Decided(d)
  }

  /** Gates and tokens accumulate; no decision is made and no gate or token that existed changes. */
  ghost predicate DeskGrows(d: Desk, d': Desk) {
    && d'.decisions == d.decisions
    && (forall g :: g in d.gates ==> g in d'.gates && d'.gates[g] == d.gates[g])
    && (forall t :: t in d.tokens ==> t in d'.tokens && d'.tokens[t] == d.tokens[t])
    && (forall g :: g in d'.gates && g !in d.gates ==> d'.gates[g].status == GatePending)
  }

  lemma DecidedGrows(d: Desk, d': Desk)
    requires Decided(d) && DeskGrows(d, d')
    ensures Decided(d')
  {
    forall k | 0 <= k < |d'.decisions|
      ensures DecisionFits(d', d'.decisions[k])
    {
      assert DecisionFits(d, d.decisions[k]);
    }
  }

  lemma {:induction false} IssueTokensGrows(d: Desk, gate: nat, run: RunId, step: StepName,
                                            channels: seq<Channel>, expires: nat)
    requires Issued(d) && gate in d.gates && d.gates[gate].run == run && d.gates[gate].step == step
    ensures var d' := IssueTokens(d, gate, run, step, channels, expires);
      Issued(d') && DeskGrows(d, d') && d'.gates == d.gates
    decreases |channels|
  {
    if channels != [] {
      var token := ApprovalToken(gate, run, step, channels[0], expires, false);
      var next := d.(tokens := d.tokens[d.nextId := token], nextId := d.nextId + 1);
      IssueTokensGrows(next, gate, run, step, channels[1..], expires);
    }
  }

  lemma OpenGateGrows(d: Desk, run: RunId, step: StepName, cfg: GateConfig, now: nat)
    requires Issued(d)
    ensures var d' := OpenGate(d, run, step, cfg, now);
      && Issued(d') && DeskGrows(d, d')
      && d'.gates == d.gates[d.nextId := GateRequest(run, step, cfg.role, GatePending)]
  {
    var asked := d.(gates := d.gates[d.nextId := GateRequest(run, step, cfg.role, GatePending)],
                     nextId := d.nextId + 1);
    IssueTokensGrows(asked, d.nextId, run, step, cfg.channels, now + cfg.ttl);
  }

  // ----- The decision of one call -----

  /** The call records a decision: the token is genuine, fresh and unexpired, its gate is pending, and
      the actor has exactly the required role with the approval permission. */
  predicate Rules(d: Desk, p: Payload, actor: Standing, now: nat) {
    && Genuine(d, p) && now <= p.expires && !d.tokens[p.token].used
    && p.gate in d.gates && d.gates[p.gate].status == GatePending
    && MayDecide(actor, d.gates[p.gate].role)
  }

  /** A resolve call either adds exactly one decision and flips exactly its gate, or changes neither;
      in the second case no run or step changes, and in the first not even a refused run transition
      takes the decision back. */
  lemma ResolveAllOrNothing(w: World, p: Payload, approve: bool, actor: Standing, channel: Channel, now: nat)
    ensures var x := Resolve(w, p, approve, actor, channel, now);
      if Rules(w.desk, p, actor, now) then
        && x.world.desk == RecordDecision(Spend(w.desk, p.token), p, approve, actor, channel)
        && |x.world.desk.decisions| == |w.desk.decisions| + 1
        && x.world.desk.gates.Keys == w.desk.gates.Keys
        && (forall g :: g in w.desk.gates && g != p.gate ==> x.world.desk.gates[g] == w.desk.gates[g])
        && (x.ruling == RulingRecorded <==> MayMove(w, p.run, if approve then RunStatus.Running else Rejected))
        && (x.ruling != RulingRecorded ==> x.world.runs == w.runs && x.world.steps == w.steps)
      else
        && x.world.desk.decisions == w.desk.decisions && x.world.desk.gates == w.desk.gates
        && x.world == w.(desk := x.world.desk) && x.ruling.Refused?
  {
  }

  lemma RecordKeeps(d: Desk, p: Payload, approve: bool, actor: Standing, channel: Channel)
    requires DeskInv(d) && Genuine(d, p) && !d.tokens[p.token].used && p.gate in d.gates
    requires d.gates[p.gate].status == GatePending && MayDecide(actor, d.gates[p.gate].role)
    ensures DeskInv(RecordDecision(Spend(d, p.token), p, approve, actor, channel))
  {
    hide MayDecide;
    var d' := RecordDecision(Spend(d, p.token), p, approve, actor, channel);
    var n := |d.decisions|;
    forall k | 0 <= k < n
      ensures DecisionFits(d', d'.decisions[k])
      ensures d'.decisions[k].gate != p.gate && d'.decisions[k].token != p.token
    {
      assert DecisionFits(d, d.decisions[k]) && d'.decisions[k] == d.decisions[k];
    }
    assert d'.decisions[n].gate == p.gate && DecisionFits(d', d'.decisions[n]);
    forall g | g in d'.gates && d'.gates[g].status != GatePending
      ensures HasDecision(d'.decisions, g)
    {
      if g != p.gate {
        var k :| 0 <= k < n && d.decisions[k].gate == g;
        assert d'.decisions[k].gate == g;
      }
    }
  }

  lemma SpendKeeps(d: Desk, t: nat)
    requires DeskInv(d) && t in d.tokens
    ensures DeskInv(Spend(d, t))
  {
    forall k | 0 <= k < |d.decisions|
      ensures DecisionFits(Spend(d, t), d.decisions[k])
    {
      assert DecisionFits(d, d.decisions[k]);
    }
  }

  lemma ResolveDesk(w: World, p: Payload, approve: bool, actor: Standing, channel: Channel, now: nat)
    requires DeskInv(w.desk)
    ensures DeskInv(Resolve(w, p, approve, actor, channel, now).world.desk)
  {
    ResolveAllOrNothing(w, p, approve, actor, channel, now);
    if Rules(w.desk, p, actor, now) {
      RecordKeeps(w.desk, p, approve, actor, channel);
    } else if p.token in w.desk.tokens {
      SpendKeeps(w.desk, p.token);
    }
  }

  // ----- The world -----

  /** A gate asks about a gate step its run has reached. */
  ghost predicate AsksAt(steps: seq<Step>, name: StepName) {
    exists j :: 0 <= j < |steps| && j <= Frontier(steps) && steps[j].name == name && IsGate(name)
  }

  ghost predicate GatesPlaced(d: Desk, steps: map<RunId, seq<Step>>) {
    forall g :: g in d.gates ==>
      d.gates[g].run in steps && AsksAt(steps[d.gates[g].run], d.gates[g].step)
  }

  ghost predicate RunInv(w: World, defs: Registry, r: RunId) {
    && RunOk(w, r) && CallsAgree(w, r)
    && w.runs[r].workflow in defs && NamesOf(w.steps[r]) == defs[w.runs[r].workflow].steps
  }

  /** Nothing is recorded about runs that were never started. */
  ghost predicate NoStrays(w: World) {
    && w.runs.Keys == w.steps.Keys
    && (forall c :: c in w.idem ==> c.run in w.runs)
    && (forall c: Call :: c.run !in w.runs ==> multiset(w.calls)[c] == 0)
  }

  ghost predicate Enumerates(order: seq<RunId>, runs: set<RunId>) {
    (forall r :: r in order <==> r in runs) && Distinct(order)
  }

  ghost predicate WorldInv(w: World, defs: Registry) {
    && NoStrays(w) && Enumerates(w.order, w.runs.Keys)
    && (forall r :: r in w.runs ==> RunInv(w, defs, r))
    && DeskInv(w.desk) && GatesPlaced(w.desk, w.steps)
  }

  // ----- execute -----

  /** A run that one operation on another run leaves alone keeps its invariant. */
  lemma OtherRunInv(w: World, v: World, defs: Registry, r: RunId, q: RunId)
    requires RunInv(w, defs, q) && OnlyRun(w, v, r) && OthersUncalled(w, v, r) && q != r
    ensures RunInv(v, defs, q)
  {
  }

  /** The desk after a pass: unchanged, or with one gate opened at the run's frontier. */
  ghost predicate DeskAfter(d: Desk, v: World, r: RunId, def: WorkflowDef, now: nat) {
    && Present(v, r)
    && (v.desk == d ||
        var k := Frontier(v.steps[r]);
        k < |v.steps[r]| && IsGate(v.steps[r][k].name)
        && v.desk == OpenGate(d, r, v.steps[r][k].name, ConfigOf(def, v.steps[r][k].name), now))
  }

  lemma FailureDesk(w: World, r: RunId, i: nat, failure: Failure, comps: seq<Compensation>)
    requires Present(w, r) && i < |w.steps[r]|
    ensures var v := AfterFailure(Invoke(w, r, i), r, i, failure, comps).world; Present(v, r) && v.desk == w.desk
  {
  }

  lemma {:induction false} WalkDesk(w: World, r: RunId, def: WorkflowDef, i: nat, oracle: seq<Outcome>,
                                    now: nat, comps: seq<Compensation>)
    requires RunOk(w, r) && w.runs[r].status != Queued
    requires i <= Frontier(w.steps[r]) && |oracle| == |w.steps[r]|
    ensures DeskAfter(w.desk, Walk(w, r, def, i, oracle, now, comps).world, r, def, now)
    decreases |oracle| - i
  {
    if i < |oracle| {
      if i < Frontier(w.steps[r]) {
        PaceSettles(w, r, def, i, oracle[i], now, comps);
        WalkDesk(w, r, def, i + 1, oracle, now, comps);
      } else if !IsGate(w.steps[r][i].name) {
        PaceClaims(w, r, def, i, oracle[i], now, comps);
        match oracle[i]
        case Returns(out, more) =>
          SucceedOk(w, r, i, OutputOf(out));
          WalkDesk(Succeed(Invoke(w, r, i), r, i, OutputOf(out)), r, def, i + 1, oracle, now, comps + more);
        case Raises(failure, _) => FailureDesk(w, r, i, failure, comps);
      }
    }
  }

  /** A pass never moves a run's frontier back. */
  lemma {:induction false} WalkFrontier(w: World, r: RunId, def: WorkflowDef, i: nat, oracle: seq<Outcome>,
                                        now: nat, comps: seq<Compensation>)
    requires Present(w, r) && i <= |w.steps[r]| == |oracle|
    ensures var v := Walk(w, r, def, i, oracle, now, comps).world;
      && Present(v, r) && |v.steps[r]| == |oracle|
      && forall j :: 0 <= j < |oracle| && w.steps[r][j].status == StepStatus.Succeeded ==>
           v.steps[r][j].status == StepStatus.Succeeded
    decreases |oracle| - i
  {
    if i < |oracle| {
      var p := Pace(w, r, def, i, oracle[i], now, comps);
      PaceWrites(w, r, def, i, oracle[i], now, comps);
      if Finished(w.steps[r][i].status) {
        PaceSettles(w, r, def, i, oracle[i], now, comps);
      }
      if p.Onward? {
        WalkFrontier(p.next, r, def, i + 1, oracle, now, p.comps);
      }
    }
  }

  lemma PaceSettles(w: World, r: RunId, def: WorkflowDef, i: nat, answer: Outcome, now: nat,
                    comps: seq<Compensation>)
    requires Present(w, r) && i < |w.steps[r]| && Finished(w.steps[r][i].status)
    ensures Pace(w, r, def, i, answer, now, comps) == Onward(w, comps)
  {
  }

  lemma WalkRunOk(w: World, r: RunId, def: WorkflowDef, oracle: seq<Outcome>, now: nat)
    requires RunOk(w, r) && w.runs[r].status != Queued && |oracle| == |w.steps[r]|
    ensures var v := Walk(w, r, def, 0, oracle, now, []).world;
      RunOk(v, r) && NamesOf(v.steps[r]) == NamesOf(w.steps[r])
  {
    match w.runs[r].status
    case Running => WalkRunning(w, r, def, 0, oracle, now, []);
    case Parked => WalkParked(w, r, def, 0, oracle, now, []);
    case AwaitingApproval => WalkStill(w, r, def, 0, oracle, now, []);
    case Rejected => WalkStill(w, r, def, 0, oracle, now, []);
    case Succeeded => WalkStill(w, r, def, 0, oracle, now, []);
  }

  lemma FrontierAtLeast(steps: seq<Step>, k: nat)
    requires k <= |steps| && forall j :: 0 <= j < k ==> steps[j].status == StepStatus.Succeeded
    ensures k <= Frontier(steps)
  {
  }

  /** A gate stays where it was asked while its run's frontier only advances. */
  lemma AsksKept(before: seq<Step>, after: seq<Step>, name: StepName)
    requires AsksAt(before, name) && NamesOf(before) == NamesOf(after)
    requires forall j :: 0 <= j < |before| && before[j].status == StepStatus.Succeeded ==>
               after[j].status == StepStatus.Succeeded
    ensures AsksAt(after, name)
  {
    var j :| 0 <= j < |before| && j <= Frontier(before) && before[j].name == name;
    FrontierAtLeast(after, Frontier(before));
    assert NamesOf(after)[j] == NamesOf(before)[j];
    assert after[j].name == name;
  }

  lemma PlacedAfter(w: World, v: World, r: RunId, def: WorkflowDef, now: nat)
    requires Issued(w.desk) && GatesPlaced(w.desk, w.steps) && OnlyRun(w, v, r) && Present(w, r)
    requires DeskAfter(w.desk, v, r, def, now) && NamesOf(v.steps[r]) == NamesOf(w.steps[r])
    requires forall j :: 0 <= j < |w.steps[r]| && w.steps[r][j].status == StepStatus.Succeeded ==>
               v.steps[r][j].status == StepStatus.Succeeded
    ensures GatesPlaced(v.desk, v.steps)
  {
    var k := Frontier(v.steps[r]);
    if v.desk != w.desk {
      OpenGateGrows(w.desk, r, v.steps[r][k].name, ConfigOf(def, v.steps[r][k].name), now);
    }
    forall g | g in v.desk.gates
      ensures v.desk.gates[g].run in v.steps && AsksAt(v.steps[v.desk.gates[g].run], v.desk.gates[g].step)
    {
      if g in w.desk.gates && v.desk.gates[g] == w.desk.gates[g] {
        if v.desk.gates[g].run == r {
          AsksKept(w.steps[r], v.steps[r], v.desk.gates[g].step);
        }
      }
    }
  }

  lemma WalkWorld(w: World, defs: Registry, r: RunId, def: WorkflowDef, oracle: seq<Outcome>, now: nat)
    requires WorldInv(w, defs) && r in w.runs && w.runs[r].status != Queued && |oracle| == |w.steps[r]|
    ensures WorldInv(Walk(w, r, def, 0, oracle, now, []).world, defs)
  {
    var v := Walk(w, r, def, 0, oracle, now, []).world;
    WalkRunOk(w, r, def, oracle, now);
    WalkOnlyRun(w, r, def, 0, oracle, now, []);
    WalkCalls(w, r, def, 0, oracle, now, []);
    WalkDesk(w, r, def, 0, oracle, now, []);
    WalkFrontier(w, r, def, 0, oracle, now, []);
    WalkWorkflow(w, r, def, 0, oracle, now, []);
    PlacedAfter(w, v, r, def, now);
    DeskInvAfter(w.desk, v, r, def, now);
    WorldAfter(w, v, defs, r);
  }

  lemma DeskInvAfter(d: Desk, v: World, r: RunId, def: WorkflowDef, now: nat)
    requires DeskInv(d) && DeskAfter(d, v, r, def, now)
    ensures DeskInv(v.desk)
  {
    if v.desk != d {
      var name := v.steps[r][Frontier(v.steps[r])].name;
      OpenGateGrows(d, r, name, ConfigOf(def, name), now);
      DecidedGrows(d, v.desk);
    }
  }

  lemma {:induction false} WalkWorkflow(w: World, r: RunId, def: WorkflowDef, i: nat, oracle: seq<Outcome>,
                                        now: nat, comps: seq<Compensation>)
    requires Present(w, r) && i <= |w.steps[r]| == |oracle|
    ensures var v := Walk(w, r, def, i, oracle, now, comps).world;
      Present(v, r) && v.runs[r].workflow == w.runs[r].workflow
    decreases |oracle| - i
  {
    hide OpenGate;
    if i < |oracle| {
      var p := Pace(w, r, def, i, oracle[i], now, comps);
      PaceWrites(w, r, def, i, oracle[i], now, comps);
      if p.Onward? {
        WalkWorkflow(p.next, r, def, i + 1, oracle, now, p.comps);
      }
    }
  }

  lemma WorldAfter(w: World, v: World, defs: Registry, r: RunId)
    requires WorldInv(w, defs) && r in w.runs && OnlyRun(w, v, r) && OthersUncalled(w, v, r)
    requires RunOk(v, r) && CallsAgree(v, r) && NamesOf(v.steps[r]) == NamesOf(w.steps[r])
    requires v.runs[r].workflow == w.runs[r].workflow
    requires DeskInv(v.desk) && GatesPlaced(v.desk, v.steps)
    ensures WorldInv(v, defs)
  {
    assert RunInv(w, defs, r);
    forall q | q in v.runs
      ensures RunInv(v, defs, q)
    {
      if q != r {
        OtherRunInv(w, v, defs, r, q);
      }
    }
  }

  lemma PromoteInv(w: World, defs: Registry, r: RunId)
    requires WorldInv(w, defs) && r in w.runs
    ensures WorldInv(Promote(w, r), defs) && Promote(w, r).runs[r].status != Queued
  {
    hide OnlyRun;
    var v := Promote(w, r);
    assert RunInv(w, defs, r);
    assert RunOk(v, r);
    PutOnlyRun(w, w.desk, r, v.runs[r]);
    assert w.(desk := w.desk) == w;
    if v != w {
      WorldAfter(w, v, defs, r);
    }
  }

  lemma ExecuteInv(w: World, defs: Registry, r: RunId, locked: bool, oracle: seq<Outcome>, now: nat)
    requires WorldInv(w, defs) && (Present(w, r) ==> |oracle| == |w.steps[r]|)
    ensures WorldInv(Execute(w, defs, r, locked, oracle, now).world, defs)
  {
    if Present(w, r) && !locked {
      PromoteInv(w, defs, r);
      if w.runs[r].workflow in defs {
        WalkWorld(Promote(w, r), defs, r, defs[w.runs[r].workflow], oracle, now);
      }
    }
  }

  // ----- resolve_gate -----

  lemma {:induction false} IndexOfIs(steps: seq<Step>, i: nat)
    requires i < |steps| && Distinct(NamesOf(steps))
    ensures IndexOf(steps, steps[i].name) == i
  {
    if i > 0 {
      var names := NamesOf(steps);
      assert names[0] != names[i];
      assert NamesOf(steps[1..]) == names[1..];
      IndexOfIs(steps[1..], i - 1);
    }
  }

  /** Advancing a reached gate step completes it if it is the frontier and changes nothing otherwise. */
  lemma AdvanceShape(steps: seq<Step>, i: nat)
    requires Shape(steps) && i < |steps| && i <= Frontier(steps) && IsGate(steps[i].name)
    ensures var after := steps[i := steps[i].(status := StepStatus.Succeeded)];
      && Shape(after) && NamesOf(after) == NamesOf(steps)
      && Frontier(after) == (if i == Frontier(steps) then i + 1 else Frontier(steps))
      && (i < Frontier(steps) ==> after == steps)
  {
    var after := steps[i := steps[i].(status := StepStatus.Succeeded)];
    if i == Frontier(steps) {
      SucceedShape(steps, i, steps[i].(status := StepStatus.Succeeded));
    } else {
      assert after == steps;
    }
  }

  /** The run and its steps after a recorded approval: the gate step advanced, the run running again. */
  lemma ApproveRun(w: World, v: World, r: RunId, i: nat)
    requires RunOk(w, r) && CallsAgree(w, r)
    requires i < |w.steps[r]| && i <= Frontier(w.steps[r]) && IsGate(w.steps[r][i].name)
    requires Present(v, r) && v.idem == w.idem && v.calls == w.calls
    requires v.runs[r] == w.runs[r].(status := RunStatus.Running)
    requires v.steps[r] == w.steps[r][i := w.steps[r][i].(status := StepStatus.Succeeded)]
    ensures RunOk(v, r) && CallsAgree(v, r) && NamesOf(v.steps[r]) == NamesOf(w.steps[r])
  {
    AdvanceShape(w.steps[r], i);
    assert forall j :: 0 <= j < |w.steps[r]| ==> v.steps[r][j].name == w.steps[r][j].name;
  }

  /** What a recorded ruling does to its run: a rejection only marks it rejected; an approval marks it
      running and completes its gate step `i`. */
  ghost predicate RuledTo(w: World, v: World, r: RunId, approve: bool, i: nat) {
    && Present(w, r) && i < |w.steps[r]| && i <= Frontier(w.steps[r]) && IsGate(w.steps[r][i].name)
    && v == w.(desk := v.desk, runs := v.runs, steps := v.steps)
    && v.runs == w.runs[r := w.runs[r].(status := if approve then RunStatus.Running else Rejected)]
    && v.steps == if approve
         then w.steps[r := w.steps[r][i := w.steps[r][i].(status := StepStatus.Succeeded)]]
         else w.steps
  }

  lemma RulingUnfolds(w: World, p: Payload, approve: bool, actor: Standing, channel: Channel, now: nat, i: nat)
    requires Rules(w.desk, p, actor, now) && MayMove(w, p.run, if approve then RunStatus.Running else Rejected)
    requires Present(w, p.run) && i < |w.steps[p.run]| && IndexOf(w.steps[p.run], p.step) == i
    requires i <= Frontier(w.steps[p.run]) && IsGate(p.step)
    ensures RuledTo(w, Resolve(w, p, approve, actor, channel, now).world, p.run, approve, i)
  {
  }

  lemma AskedIndex(w: World, defs: Registry, p: Payload) returns (i: nat)
    requires WorldInv(w, defs) && p.gate in w.desk.gates && Genuine(w.desk, p)
    ensures Present(w, p.run) && RunInv(w, defs, p.run)
    ensures i < |w.steps[p.run]| && i <= Frontier(w.steps[p.run]) && IsGate(p.step)
    ensures IndexOf(w.steps[p.run], p.step) == i && w.steps[p.run][i].name == p.step
  {
    var r := p.run;
    assert RunInv(w, defs, r);
    assert AsksAt(w.steps[r], p.step);
    i :| 0 <= i < |w.steps[r]| && i <= Frontier(w.steps[r]) && w.steps[r][i].name == p.step;
    IndexOfIs(w.steps[r], i);
  }

  /** Run `r` moved from `w` to `v` with its invariant, its names and its completed steps kept. */
  ghost predicate RunMoved(w: World, v: World, r: RunId) {
    && Present(w, r) && RunOk(v, r) && CallsAgree(v, r) && OnlyRun(w, v, r) && v.calls == w.calls
    && NamesOf(v.steps[r]) == NamesOf(w.steps[r]) && v.runs[r].workflow == w.runs[r].workflow
    && forall j :: 0 <= j < |w.steps[r]| && w.steps[r][j].status == StepStatus.Succeeded ==>
         v.steps[r][j].status == StepStatus.Succeeded
  }

  lemma ApprovedMoves(w: World, v: World, r: RunId, i: nat)
    requires RunOk(w, r) && CallsAgree(w, r) && RuledTo(w, v, r, true, i)
    ensures RunMoved(w, v, r)
  {
    ApproveRun(w, v, r, i);
  }

  lemma RejectedMoves(w: World, v: World, r: RunId, i: nat)
    requires RunOk(w, r) && CallsAgree(w, r) && RuledTo(w, v, r, false, i) && MayMove(w, r, Rejected)
    ensures RunMoved(w, v, r)
  {
  }

  lemma RuledWorld(w: World, defs: Registry, p: Payload, approve: bool, actor: Standing, channel: Channel, now: nat)
    requires WorldInv(w, defs) && Rules(w.desk, p, actor, now)
    requires MayMove(w, p.run, if approve then RunStatus.Running else Rejected)
    ensures WorldInv(Resolve(w, p, approve, actor, channel, now).world, defs)
  {
    var v := Resolve(w, p, approve, actor, channel, now).world;
    var i := AskedIndex(w, defs, p);
    RulingUnfolds(w, p, approve, actor, channel, now, i);
    if approve {
      ApprovedMoves(w, v, p.run, i);
    } else {
      RejectedMoves(w, v, p.run, i);
    }
    ResolveDesk(w, p, approve, actor, channel, now);
    RecordedGates(w.desk, p, approve, actor, channel);
    ResolveAllOrNothing(w, p, approve, actor, channel, now);
    RuledPlaced(w, v, p.run);
    WorldAfter(w, v, defs, p.run);
  }

  lemma RecordedGates(d: Desk, p: Payload, approve: bool, actor: Standing, channel: Channel)
    requires p.gate in d.gates && p.token in d.tokens
    ensures var d' := RecordDecision(Spend(d, p.token), p, approve, actor, channel);
      && d'.gates.Keys == d.gates.Keys
      && forall g :: g in d.gates ==> d'.gates[g].run == d.gates[g].run && d'.gates[g].step == d.gates[g].step
  {
  }

  lemma RuledPlaced(w: World, v: World, r: RunId)
    requires GatesPlaced(w.desk, w.steps) && OnlyRun(w, v, r) && Present(w, r) && Present(v, r)
    requires NamesOf(v.steps[r]) == NamesOf(w.steps[r])
    requires forall j :: 0 <= j < |w.steps[r]| && w.steps[r][j].status == StepStatus.Succeeded ==>
               v.steps[r][j].status == StepStatus.Succeeded
    requires v.desk.gates.Keys == w.desk.gates.Keys
    requires forall g :: g in w.desk.gates ==>
               v.desk.gates[g].run == w.desk.gates[g].run && v.desk.gates[g].step == w.desk.gates[g].step
    ensures GatesPlaced(v.desk, v.steps)
  {
    forall g | g in v.desk.gates
      ensures v.desk.gates[g].run in v.steps && AsksAt(v.steps[v.desk.gates[g].run], v.desk.gates[g].step)
    {
      if v.desk.gates[g].run == r {
        AsksKept(w.steps[r], v.steps[r], v.desk.gates[g].step);
      }
    }
  }

  /** A call that moves no run. */
  lemma QuietInv(w: World, defs: Registry, d: Desk)
    requires WorldInv(w, defs) && DeskInv(d) && GatesPlaced(d, w.steps)
    ensures WorldInv(w.(desk := d), defs)
  {
    var v := w.(desk := d);
    forall q | q in v.runs
      ensures RunInv(v, defs, q)
    {
      assert RunInv(w, defs, q);
    }
  }

  lemma PlacedByGates(d: Desk, d': Desk, steps: map<RunId, seq<Step>>)
    requires GatesPlaced(d, steps) && d'.gates.Keys == d.gates.Keys
    requires forall g :: g in d.gates ==> d'.gates[g].run == d.gates[g].run && d'.gates[g].step == d.gates[g].step
    ensures GatesPlaced(d', steps)
  {
  }

  lemma UnmovedResolve(w: World, p: Payload, approve: bool, actor: Standing, channel: Channel, now: nat)
    requires !(Rules(w.desk, p, actor, now) && MayMove(w, p.run, if approve then RunStatus.Running else Rejected))
    requires GatesPlaced(w.desk, w.steps)
    ensures var v := Resolve(w, p, approve, actor, channel, now).world;
      v == w.(desk := v.desk) && GatesPlaced(v.desk, w.steps)
  {
    var v := Resolve(w, p, approve, actor, channel, now).world;
    ResolveAllOrNothing(w, p, approve, actor, channel, now);
    if Rules(w.desk, p, actor, now) {
      RecordedGates(w.desk, p, approve, actor, channel);
    }
    PlacedByGates(w.desk, v.desk, w.steps);
  }

  lemma ResolveInv(w: World, defs: Registry, p: Payload, approve: bool, actor: Standing, channel: Channel, now: nat)
    requires WorldInv(w, defs)
    ensures WorldInv(Resolve(w, p, approve, actor, channel, now).world, defs)
  {
    if Rules(w.desk, p, actor, now) && MayMove(w, p.run, if approve then RunStatus.Running else Rejected) {
      RuledWorld(w, defs, p, approve, actor, channel, now);
    } else {
      ResolveDesk(w, p, approve, actor, channel, now);
      UnmovedResolve(w, p, approve, actor, channel, now);
      QuietInv(w, defs, Resolve(w, p, approve, actor, channel, now).world.desk);
    }
  }

  // ----- start_run and recovery_sweep -----

  lemma FanOutShape(names: seq<StepName>)
    ensures Shape(FanOut(names)) && Frontier(FanOut(names)) == 0 && NamesOf(FanOut(names)) == names
  {
    FrontierIs(FanOut(names), 0);
  }

  lemma FreshRun(w: World, v: World, defs: Registry, r: RunId)
    requires NoStrays(w) && r !in w.runs && Present(v, r) && WellNamed(defs)
    requires v.runs[r].workflow in defs && v.runs[r].status == Queued
    requires v.steps[r] == FanOut(defs[v.runs[r].workflow].steps) && v.idem == w.idem && v.calls == w.calls
    ensures RunInv(v, defs, r)
  {
    FanOutShape(defs[v.runs[r].workflow].steps);
  }

  lemma StartInv(w: World, defs: Registry, workflow: string, r: RunId, dedupe: string)
    requires WorldInv(w, defs) && WellNamed(defs) && r !in w.runs
    ensures var s := StartRun(w, defs, workflow, r, dedupe);
      s.Started? ==> WorldInv(s.world, defs)
  {
    var s := StartRun(w, defs, workflow, r, dedupe);
    if s.Started? && s.world != w {
      var v := s.world;
      assert v == w.(runs := v.runs, order := v.order, steps := v.steps, dedupe := v.dedupe);
      FreshRun(w, v, defs, r);
      OthersStarted(w, v, defs, r);
      StartOrder(w.order, w.runs.Keys, r);
      StartPlaced(w, v, r);
    }
  }

  lemma OthersStarted(w: World, v: World, defs: Registry, r: RunId)
    requires forall q :: q in w.runs ==> RunInv(w, defs, q)
    requires w.runs.Keys == w.steps.Keys && r !in w.runs && v.idem == w.idem && v.calls == w.calls
    requires v.runs.Keys == w.runs.Keys + {r} && forall q :: q in w.runs ==> v.runs[q] == w.runs[q]
    requires v.steps.Keys == w.steps.Keys + {r} && forall q :: q in w.steps ==> v.steps[q] == w.steps[q]
    ensures forall q :: q in w.runs ==> RunInv(v, defs, q)
  {
    forall q | q in w.runs
      ensures RunInv(v, defs, q)
    {
      assert RunInv(w, defs, q);
    }
  }

  lemma StartOrder(order: seq<RunId>, runs: set<RunId>, r: RunId)
    requires Enumerates(order, runs) && r !in runs
    ensures Enumerates(order + [r], runs + {r})
  {
  }

  lemma StartPlaced(w: World, v: World, r: RunId)
    requires GatesPlaced(w.desk, w.steps) && r !in w.steps && v.desk == w.desk
    requires v.steps.Keys == w.steps.Keys + {r} && forall q :: q in w.steps ==> v.steps[q] == w.steps[q]
    ensures GatesPlaced(v.desk, v.steps)
  {
  }

  lemma {:induction false} SweepRunsInv(w: World, defs: Registry, listed: seq<RunId>, oracle: Oracle, now: nat)
    requires WorldInv(w, defs)
    ensures WorldInv(SweepRuns(w, defs, listed, oracle, now), defs)
    decreases |listed|
  {
    if listed != [] {
      var r := listed[0];
      if r in w.runs && w.runs[r].status != AwaitingApproval {
        var answers := AnswersFor(oracle, w, r);
        ExecuteInv(w, defs, r, false, answers, now);
        SweepRunsInv(Execute(w, defs, r, false, answers, now).world, defs, listed[1..], oracle, now);
      } else {
        SweepRunsInv(w, defs, listed[1..], oracle, now);
      }
    }
  }

  lemma ApplyInv(w: World, defs: Registry, op: Op)
    requires WorldInv(w, defs) && WellNamed(defs)
    ensures WorldInv(Apply(w, defs, op), defs)
  {
    match op
    case OpStart(workflow, r, dedupe) => if r !in w.runs { StartInv(w, defs, workflow, r, dedupe); }
    case OpExecute(r, locked, oracle, now) => ExecuteInv(w, defs, r, locked, AnswersFor(oracle, w, r), now);
    case OpResolve(p, approve, actor, channel, now) => ResolveInv(w, defs, p, approve, actor, channel, now);
    case OpSweep(oracle, now) => SweepRunsInv(w, defs, Listed(w, w.order), oracle, now);
  }

  lemma {:induction false} HistoryInv(w: World, defs: Registry, ops: seq<Op>)
    requires WorldInv(w, defs) && WellNamed(defs)
    ensures WorldInv(History(w, defs, ops), defs)
    decreases |ops|
  {
    if ops != [] {
      ApplyInv(w, defs, ops[0]);
      HistoryInv(Apply(w, defs, ops[0]), defs, ops[1..]);
    }
  }
}
