/** Every sequential history, seen from one run, is one of the protocol's interleavings. */
module HistoryRefinement {
  import opened Wrappers
  import opened States
  import P = Protocol
  import S = ProtocolSafety
  import T = ProtocolTheorems
  import W = Workflow
  import R = WorkflowRuns
  import H = WorkflowHistory
  import WT = WorkflowTheorems
  import L = WorkflowLimits
  import opened EngineRefinement
  import opened DeskRefinement

  // ----- Whole histories -----

  /** A reachable protocol state that agrees with the stores on run `r`. */
  ghost predicate Mirrors(names: seq<StepName>, s: P.State, w: W.World, r: W.RunId, k: Link) {
    && T.Reachable(names, s) && s.core.names == names && Distinct(names)
    && Agree(s.core, w, r) && DeskAgree(names, s.desk, w.desk, r, k)
  }

  ghost predicate Mirrored(w: W.World, r: W.RunId) {
    W.Present(w, r) ==> exists s, k :: Mirrors(R.NamesOf(w.steps[r]), s, w, r, k)
  }

  lemma Witness(names: seq<StepName>, s: P.State, w: W.World, r: W.RunId, k: Link)
    requires Mirrors(names, s, w, r, k)
    ensures Mirrored(w, r)
  {
    hide DeskAgree, T.Reachable, P.Recorded, W.Recorded;
    assert R.NamesOf(w.steps[r]) == names;
  }

  lemma ReachableNames(names: seq<StepName>, s: P.State)
    requires T.Reachable(names, s)
    ensures s.core.names == names
  {
    hide T.Reachable, S.Inv;
    T.ReachableInv(names, s);
  }

  /** Run `r` and everything of it on the desk are untouched. */
  ghost predicate Untouched(w: W.World, v: W.World, r: W.RunId) {
    && W.Present(w, r) && W.Present(v, r) && v.runs[r] == w.runs[r] && v.steps[r] == w.steps[r]
    && (forall c: W.Call :: c.run == r ==> (W.Recorded(v, c) <==> W.Recorded(w, c)))
    && Elsewhere(w.desk, v.desk, r)
  }

  lemma UntouchedAgrees(c: P.Core, w: W.World, v: W.World, r: W.RunId)
    requires Agree(c, w, r) && Untouched(w, v, r)
    ensures Agree(c, v, r)
  {
    hide P.Recorded, W.Recorded, Elsewhere;
    assert forall i :: 0 <= i < |c.names| ==> W.Call(r, c.names[i]).run == r;
  }

  lemma UntouchedMirrored(w: W.World, v: W.World, r: W.RunId)
    requires Mirrored(w, r) && Untouched(w, v, r)
    ensures Mirrored(v, r)
  {
    hide Agree, DeskAgree, T.Reachable, Elsewhere, W.Recorded;
    var names := R.NamesOf(w.steps[r]);
    var s, k :| Mirrors(names, s, w, r, k);
    UntouchedAgrees(s.core, w, v, r);
    ElsewhereKeeps(names, s.desk, w.desk, v.desk, r, k);
    Witness(names, s, v, r, k);
  }

  // ----- Executions -----

  lemma ExecuteOwn(w: W.World, defs: W.Registry, r: W.RunId, locked: bool, oracle: seq<W.Outcome>, now: nat)
    requires Mirrored(w, r) && W.Present(w, r) && |oracle| == |w.steps[r]|
    ensures Mirrored(W.Execute(w, defs, r, locked, oracle, now).world, r)
  {
    hide Agree, DeskAgree, T.Reachable, W.Execute, SameAsk;
    var names := R.NamesOf(w.steps[r]);
    var s, k :| Mirrors(names, s, w, r, k);
    AgreePresent(s.core, w, r);
    var v := W.Execute(w, defs, r, locked, oracle, now).world;
    var t := ExecuteStaysReachable(names, s, w, defs, r, locked, oracle, now);
    ReachableNames(names, t);
    var k' := AskAgrees(names, s.desk, t.desk, w.desk, v.desk, r, k);
    Witness(names, t, v, r, k');
  }

  lemma PaceElsewhere(w: W.World, q: W.RunId, def: W.WorkflowDef, i: nat, answer: W.Outcome, now: nat,
                      comps: seq<W.Compensation>, r: W.RunId)
    requires W.Present(w, q) && i < |w.steps[q]| && q != r
    requires (forall g <- w.desk.gates :: g < w.desk.nextId) && (forall t <- w.desk.tokens :: t < w.desk.nextId)
    ensures Elsewhere(w.desk, R.WorldOf(W.Pace(w, q, def, i, answer, now, comps)).desk, r)
  {
    hide W.OpenGate, W.Recorded, W.Reverse;
    var step := w.steps[q][i];
    OpenElsewhere(w.desk, q, step.name, W.ConfigOf(def, step.name), now, r);
    SelfElsewhere(w.desk, r);
    hide Elsewhere;
  }

  lemma SelfElsewhere(w: W.Desk, r: W.RunId)
    requires (forall g <- w.gates :: g < w.nextId) && (forall t <- w.tokens :: t < w.nextId)
    ensures Elsewhere(w, w, r)
  {
  }

  lemma {:induction false} WalkElsewhere(w: W.World, q: W.RunId, def: W.WorkflowDef, i: nat, oracle: seq<W.Outcome>,
                                         now: nat, comps: seq<W.Compensation>, r: W.RunId)
    requires W.Present(w, q) && i <= |w.steps[q]| == |oracle| && q != r
    requires (forall g <- w.desk.gates :: g < w.desk.nextId) && (forall t <- w.desk.tokens :: t < w.desk.nextId)
    ensures Elsewhere(w.desk, W.Walk(w, q, def, i, oracle, now, comps).world.desk, r)
    decreases |oracle| - i
  {
    hide W.Pace, SameGate, SameToken;
    if i < |oracle| {
      PaceElsewhere(w, q, def, i, oracle[i], now, comps, r);
      var p := W.Pace(w, q, def, i, oracle[i], now, comps);
      if p.Onward? {
        WalkElsewhere(p.next, q, def, i + 1, oracle, now, p.comps, r);
        ElsewhereOn(w.desk, p.next.desk, W.Walk(p.next, q, def, i + 1, oracle, now, p.comps).world.desk, r);
      }
    } else {
      SelfElsewhere(w.desk, r);
      SettleDesk(w, q, RunStatus.Succeeded, W.Completed);
    }
  }

  lemma ExecuteOther(w: W.World, defs: W.Registry, q: W.RunId, locked: bool, oracle: seq<W.Outcome>, now: nat,
                     r: W.RunId)
    requires H.WorldInv(w, defs) && W.Present(w, r) && q != r && (W.Present(w, q) ==> |oracle| == |w.steps[q]|)
    ensures Untouched(w, W.Execute(w, defs, q, locked, oracle, now).world, r)
  {
    hide Elsewhere, W.Walk, W.Recorded, H.WorldInv;
    var v := W.Execute(w, defs, q, locked, oracle, now).world;
    WT.OtherStill(w, defs, r, q, locked, oracle, now);
    IdsBelow(w, defs);
    SelfElsewhere(w.desk, r);
    SelfOutputs(w, q);
    if W.Present(w, q) && !locked {
      PromoteOutputs(w, q);
      if w.runs[q].workflow in defs {
        var m, def := W.Promote(w, q), defs[w.runs[q].workflow];
        WalkElsewhere(m, q, def, 0, oracle, now, [], r);
        WalkOutputs(m, q, def, 0, oracle, now, []);
      }
    }
  }

  lemma IdsBelow(w: W.World, defs: W.Registry)
    requires H.WorldInv(w, defs)
    ensures (forall g <- w.desk.gates :: g < w.desk.nextId) && (forall t <- w.desk.tokens :: t < w.desk.nextId)
  {
    hide H.RunInv, H.Decided, H.GatesPlaced;
  }

  lemma SelfOutputs(w: W.World, q: W.RunId)
    ensures SameOutputs(w, w, q)
  {
  }

  lemma PromoteOutputs(w: W.World, q: W.RunId)
    requires W.Present(w, q)
    ensures SameOutputs(w, W.Promote(w, q), q) && W.Promote(w, q).desk == w.desk
    ensures W.Present(W.Promote(w, q), q) && W.Promote(w, q).steps == w.steps
  {
  }

  lemma ExecuteMirrored(w: W.World, defs: W.Registry, q: W.RunId, locked: bool, oracle: seq<W.Outcome>, now: nat,
                        r: W.RunId)
    requires H.WorldInv(w, defs) && W.Present(w, r) && Mirrored(w, r) && (W.Present(w, q) ==> |oracle| == |w.steps[q]|)
    ensures Mirrored(W.Execute(w, defs, q, locked, oracle, now).world, r)
  {
    hide W.Execute, Mirrored, H.WorldInv;
    if q == r {
      ExecuteOwn(w, defs, r, locked, oracle, now);
    } else {
      ExecuteOther(w, defs, q, locked, oracle, now, r);
      UntouchedMirrored(w, W.Execute(w, defs, q, locked, oracle, now).world, r);
    }
  }

  // ----- Resolutions, starts and sweeps -----

  lemma SpendElsewhere(w: W.Desk, t: nat, r: W.RunId)
    requires t in w.tokens && w.tokens[t].run != r
    requires (forall g <- w.gates :: g < w.nextId) && (forall u <- w.tokens :: u < w.nextId)
    ensures Elsewhere(w, W.Spend(w, t), r)
  {
  }

  lemma RecordElsewhere(w: W.Desk, p: W.Payload, approve: bool, actor: Standing, channel: W.Channel, r: W.RunId)
    requires p.gate in w.gates && w.gates[p.gate].run != r && p.run != r
    requires (forall g <- w.gates :: g < w.nextId) && (forall u <- w.tokens :: u < w.nextId)
    ensures Elsewhere(w, W.RecordDecision(w, p, approve, actor, channel), r)
  {
    hide OfRun;
    OfRunSnoc(w.decisions, W.ApprovalDecision(p.gate, p.run, p.step, approve, actor, channel, p.token), r);
  }

  lemma ResolveElsewhere(w: W.World, defs: W.Registry, p: W.Payload, approve: bool, actor: Standing,
                         channel: W.Channel, now: nat, r: W.RunId)
    requires H.WorldInv(w, defs) && p.run != r
    ensures Elsewhere(w.desk, W.Resolve(w, p, approve, actor, channel, now).world.desk, r)
  {
    hide Elsewhere, W.Rule, H.RunInv, H.Decided, H.GatesPlaced, MayDecide;
    IdsBelow(w, defs);
    SelfElsewhere(w.desk, r);
    if W.Genuine(w.desk, p) {
      SpendElsewhere(w.desk, p.token, r);
      var spent := w.(desk := W.Spend(w.desk, p.token));
      if p.gate in w.desk.gates {
        RuleDesk(spent, p, approve, actor, channel);
        RecordElsewhere(spent.desk, p, approve, actor, channel, r);
        ElsewhereOn(w.desk, spent.desk, W.RecordDecision(spent.desk, p, approve, actor, channel), r);
      }
    }
  }

  lemma ResolveIdem(w: W.World, p: W.Payload, approve: bool, actor: Standing, channel: W.Channel, now: nat)
    ensures W.Resolve(w, p, approve, actor, channel, now).world.idem == w.idem
  {
    hide W.Rule, MayDecide;
    if p.gate in w.desk.gates && p.token in w.desk.tokens {
      RuleIdem(w.(desk := W.Spend(w.desk, p.token)), p, approve, actor, channel);
    }
  }

  lemma RuleIdem(w: W.World, p: W.Payload, approve: bool, actor: Standing, channel: W.Channel)
    requires p.gate in w.desk.gates
    ensures W.Rule(w, p, approve, actor, channel).world.idem == w.idem
  {
    hide W.RecordDecision, W.IndexOf;
  }

  lemma ResolveMirrored(w: W.World, defs: W.Registry, p: W.Payload, approve: bool, actor: Standing,
                        channel: W.Channel, now: nat, r: W.RunId)
    requires H.WorldInv(w, defs) && W.Present(w, r) && Mirrored(w, r)
    ensures Mirrored(W.Resolve(w, p, approve, actor, channel, now).world, r)
  {
    hide Agree, DeskAgree, T.Reachable, W.Resolve, H.RunInv, Elsewhere;
    var v := W.Resolve(w, p, approve, actor, channel, now).world;
    if p.run == r {
      var names := R.NamesOf(w.steps[r]);
      var s, k :| Mirrors(names, s, w, r, k);
      var u := ResolveOwn(names, s, w, defs, r, k, p, approve, actor, channel, now);
      ReachableNames(names, u);
      Witness(names, u, v, r, k);
    } else {
      WT.ResolveStill(w, r, p, approve, actor, channel, now);
      ResolveElsewhere(w, defs, p, approve, actor, channel, now, r);
      ResolveIdem(w, p, approve, actor, channel, now);
      UntouchedMirrored(w, v, r);
    }
  }

  /** A fresh run corresponds to the protocol's initial state. */
  lemma StartMirrored(w: W.World, defs: W.Registry, workflow: string, r: W.RunId, dedupe: string)
    requires H.WorldInv(w, defs) && W.WellNamed(defs) && r !in w.runs && workflow in defs
    requires !(dedupe != "" && dedupe in w.dedupe)
    ensures Mirrored(W.StartRun(w, defs, workflow, r, dedupe).world, r)
  {
    hide Agree, DeskAgree, P.Init, H.RunInv, H.DeskInv;
    var v := W.StartRun(w, defs, workflow, r, dedupe).world;
    var names := defs[workflow].steps;
    var s := P.Init(names);
    assert s == P.Exec(s, []);
    assert T.Reachable(names, s);
    assert forall c <- v.idem :: c.run != r;
    InitAgrees(names, v, r);
    NothingAsked(names, v, defs, r, w);
    Witness(names, s, v, r, Link(map[], map[]));
  }

  lemma InitAgrees(names: seq<StepName>, v: W.World, r: W.RunId)
    requires W.Present(v, r) && v.runs[r].status == Queued && v.steps[r] == FanOut(names)
    requires forall c <- v.idem :: c.run != r
    ensures Agree(P.Init(names).core, v, r) && P.Init(names).core.names == names
  {
  }

  lemma NoRulings(w: W.World, defs: W.Registry, r: W.RunId)
    requires H.WorldInv(w, defs) && r !in w.runs
    ensures OfRun(w.desk.decisions, r) == []
  {
    hide H.RunInv, OfRun;
    forall i | 0 <= i < |w.desk.decisions|
      ensures w.desk.decisions[i].run != r
    {
      assert H.DecisionFits(w.desk, w.desk.decisions[i]);
    }
    OfRunNone(w.desk.decisions, r);
  }

  lemma NothingAsked(names: seq<StepName>, v: W.World, defs: W.Registry, r: W.RunId, w: W.World)
    requires H.WorldInv(w, defs) && r !in w.runs && v.desk == w.desk
    ensures DeskAgree(names, P.Init(names).desk, v.desk, r, Link(map[], map[]))
  {
    NoRulings(w, defs, r);
    hide H.RunInv, H.Decided, OfRun;
    var k := Link(map[], map[]);
    forall g: nat
      ensures GateOk(names, map[], v.desk.gates, r, k.gates, g)
    {
    }
    forall t: nat
      ensures TokenOk(names, map[], v.desk.tokens, r, k, t)
    {
    }
  }

  lemma {:induction false} SweepMirrored(w: W.World, defs: W.Registry, listed: seq<W.RunId>, oracle: W.Oracle, now: nat,
                                         r: W.RunId)
    requires H.WorldInv(w, defs) && W.Present(w, r) && Mirrored(w, r)
    ensures Mirrored(W.SweepRuns(w, defs, listed, oracle, now), r)
    decreases |listed|
  {
    hide W.Execute, Mirrored, H.WorldInv;
    if listed != [] {
      var q := listed[0];
      if q in w.runs && w.runs[q].status != AwaitingApproval {
        var answers := W.AnswersFor(oracle, w, q);
        var v := W.Execute(w, defs, q, false, answers, now).world;
        ExecuteMirrored(w, defs, q, false, answers, now, r);
        H.ExecuteInv(w, defs, q, false, answers, now);
        ExecutePresent(w, defs, q, false, answers, now, r);
        SweepMirrored(v, defs, listed[1..], oracle, now, r);
      } else {
        SweepMirrored(w, defs, listed[1..], oracle, now, r);
      }
    }
  }

  lemma ExecutePresent(w: W.World, defs: W.Registry, q: W.RunId, locked: bool, oracle: seq<W.Outcome>, now: nat,
                       r: W.RunId)
    requires W.Present(w, r) && (W.Present(w, q) ==> |oracle| == |w.steps[q]|)
    ensures W.Present(W.Execute(w, defs, q, locked, oracle, now).world, r)
  {
    hide W.Walk;
    if W.Present(w, q) && !locked && w.runs[q].workflow in defs {
      R.WalkOnlyRun(W.Promote(w, q), q, defs[w.runs[q].workflow], 0, oracle, now, []);
    }
  }

  lemma ApplyMirrored(w: W.World, defs: W.Registry, op: W.Op, r: W.RunId)
    requires H.WorldInv(w, defs) && W.WellNamed(defs) && Mirrored(w, r)
    ensures Mirrored(W.Apply(w, defs, op), r)
  {
    hide W.Execute, W.Resolve, W.SweepRuns, Mirrors, Mirrored, H.RunInv, H.Decided, W.Answers, W.Listed;
    if r !in w.runs {
      NewcomerMirrored(w, defs, op, r);
    } else {
      match op
      case OpStart(workflow, q, dedupe) => StartOther(w, defs, workflow, q, dedupe, r);
      case OpExecute(q, locked, oracle, now) =>
        ExecuteMirrored(w, defs, q, locked, W.AnswersFor(oracle, w, q), now, r);
      case OpResolve(p, approve, actor, channel, now) => ResolveMirrored(w, defs, p, approve, actor, channel, now, r);
      case OpSweep(oracle, now) => SweepMirrored(w, defs, W.Listed(w, w.order), oracle, now, r);
    }
  }

  lemma StartOther(w: W.World, defs: W.Registry, workflow: string, q: W.RunId, dedupe: string, r: W.RunId)
    requires H.WorldInv(w, defs) && W.Present(w, r) && Mirrored(w, r)
    ensures Mirrored(W.Apply(w, defs, W.OpStart(workflow, q, dedupe)), r)
  {
    hide Mirrored, Elsewhere, H.WorldInv;
    var v := W.Apply(w, defs, W.OpStart(workflow, q, dedupe));
    IdsBelow(w, defs);
    SelfElsewhere(w.desk, r);
    if q in w.runs {
      assert v == w;
    } else {
      UntouchedMirrored(w, v, r);
    }
  }

  /** An operation on stores without run `r` leaves it absent or starts it. */
  lemma NewcomerMirrored(w: W.World, defs: W.Registry, op: W.Op, r: W.RunId)
    requires H.WorldInv(w, defs) && W.WellNamed(defs) && r !in w.runs
    ensures Mirrored(W.Apply(w, defs, op), r)
  {
    hide W.Execute, W.Resolve, W.SweepRuns, Mirrors, H.RunInv, H.Decided, W.Answers, W.Listed;
    match op
    case OpStart(workflow, q, dedupe) =>
      if q == r && workflow in defs && !(dedupe != "" && dedupe in w.dedupe) {
        StartMirrored(w, defs, workflow, r, dedupe);
      }
    case OpExecute(q, locked, oracle, now) => L.ExecuteRuns(w, defs, q, locked, W.AnswersFor(oracle, w, q), now);
    case OpResolve(p, approve, actor, channel, now) => L.ResolveRuns(w, p, approve, actor, channel, now);
    case OpSweep(oracle, now) => L.SweepRunsKeys(w, defs, W.Listed(w, w.order), oracle, now);
  }

  /** Whatever is started, executed, resolved and swept, in whatever order: what is then stored of a run,
      its gates, tokens and decisions is what some interleaving of the protocol reaches. */
  lemma {:induction false} HistoryIsInterleaving(w: W.World, defs: W.Registry, ops: seq<W.Op>, r: W.RunId)
    requires H.WorldInv(w, defs) && W.WellNamed(defs) && Mirrored(w, r)
    ensures Mirrored(W.History(w, defs, ops), r)
    decreases |ops|
  {
    hide W.Apply, Mirrored, H.WorldInv, W.WellNamed;
    if ops != [] {
      ApplyMirrored(w, defs, ops[0], r);
      H.ApplyInv(w, defs, ops[0]);
      HistoryIsInterleaving(W.Apply(w, defs, ops[0]), defs, ops[1..], r);
    }
  }

  /** An approval of the step by an actor with the approval permission is stored. */
  ghost predicate ApprovedBy(w: W.World, r: W.RunId, step: StepName) {
    exists j :: 0 <= j < |w.desk.decisions| && var made := w.desk.decisions[j];
      made.run == r && made.step == step && made.approve && made.actor.Some? && GrantsGateApprove(made.actor.value)
  }

  /** A theorem carried over from the protocol: in every history, a step has succeeded only if every gate
      declared before it was approved. */
  lemma SucceededBehindApprovals(defs: W.Registry, ops: seq<W.Op>, r: W.RunId, i: nat, g: nat)
    requires W.WellNamed(defs)
    requires var w := W.History(W.EMPTY, defs, ops);
      && W.Present(w, r) && g < i < |w.steps[r]|
      && w.steps[r][i].status == StepStatus.Succeeded && IsGate(w.steps[r][g].name)
    ensures var w := W.History(W.EMPTY, defs, ops);
      ApprovedBy(w, r, w.steps[r][g].name)
  {
    hide W.History, DeskAgree, P.Exec;
    var w := W.History(W.EMPTY, defs, ops);
    WT.EmptyInv(defs);
    assert !W.Present(W.EMPTY, r);
    HistoryIsInterleaving(W.EMPTY, defs, ops, r);
    var names := R.NamesOf(w.steps[r]);
    var s, k :| Mirrors(names, s, w, r, k);
    ApprovalStored(names, s, w, r, k, i, g);
  }

  lemma ApprovalStored(names: seq<StepName>, s: P.State, w: W.World, r: W.RunId, k: Link, i: nat, g: nat)
    requires Mirrors(names, s, w, r, k) && g < i < |names|
    requires s.core.steps[i].status == StepStatus.Succeeded && IsGate(names[g])
    ensures ApprovedBy(w, r, names[g])
  {
    hide T.Reachable, GatesAgree, TokensAgree, S.GatesFit, S.CountsFit;
    T.ReachableInv(names, s);
    assert S.StatusFits(|s.core.log|, s.core.steps[i], i);
    assert S.ApprovalStored(s.desk.decisions, g);
    var m :| 0 <= m < |s.desk.decisions| && s.desk.decisions[m].approve && s.desk.decisions[m].step == g;
    var j := OfRunStored(w.desk.decisions, r, m);
    assert SameRuling(names, s.desk.decisions[m], OfRun(w.desk.decisions, r)[m], k);
    assert w.desk.decisions[j].approve;
  }
}
