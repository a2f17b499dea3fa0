/** The approvals desk in the sequential model and in the protocol: gates, tokens and decisions of one run
    correspond under a renaming of identifiers, and a resolve call keeps them so. */
module DeskRefinement {
  import opened Wrappers
  import opened States
  import P = Protocol
  import T = ProtocolTheorems
  import W = Workflow
  import R = WorkflowRuns
  import H = WorkflowHistory
  import opened ProtocolRuns
  import opened ProtocolResolving
  import opened EngineRefinement

  // ----- The desks of the two models -----

  /** The protocol's identifiers for the gates and tokens of the run. */
  datatype Link = Link(gates: map<nat, nat>, tokens: map<nat, nat>)

  ghost predicate Injective(m: map<nat, nat>) {
    forall a <- m, b <- m :: m[a] == m[b] ==> a == b
  }

  ghost predicate GateOk(names: seq<StepName>, pg: map<nat, P.Gate>, wg: map<nat, W.GateRequest>, r: W.RunId,
                         m: map<nat, nat>, g: nat)
  {
    && (g in m <==> g in wg && wg[g].run == r)
    && (g in m ==>
      m[g] in pg && var gate := pg[m[g]];
      && gate.step < |names| && names[gate.step] == wg[g].step
      && gate.role == wg[g].role && gate.status == wg[g].status)
  }

  ghost predicate TokenOk(names: seq<StepName>, pt: map<nat, P.Token>, wt: map<nat, W.ApprovalToken>, r: W.RunId,
                          k: Link, t: nat)
  {
    && (t in k.tokens <==> t in wt && wt[t].run == r)
    && (t in k.tokens ==>
      k.tokens[t] in pt && wt[t].gate in k.gates && var token := pt[k.tokens[t]];
      && token.gate == k.gates[wt[t].gate] && token.used == wt[t].used
      && token.step < |names| && names[token.step] == wt[t].step)
  }

  ghost predicate GatesAgree(names: seq<StepName>, pg: map<nat, P.Gate>, wg: map<nat, W.GateRequest>, r: W.RunId,
                             m: map<nat, nat>)
  {
    forall g: nat :: GateOk(names, pg, wg, r, m, g)
  }

  ghost predicate TokensAgree(names: seq<StepName>, pt: map<nat, P.Token>, wt: map<nat, W.ApprovalToken>, r: W.RunId,
                              k: Link)
  {
    forall t: nat :: TokenOk(names, pt, wt, r, k, t)
  }

  /** The same ruling on the same request, by the same actor and with the same token. */
  predicate SameRuling(names: seq<StepName>, made: P.Decision, kept: W.ApprovalDecision, k: Link) {
    && kept.approve == made.approve && kept.actor == made.actor
    && made.step < |names| && names[made.step] == kept.step
    && kept.gate in k.gates && k.gates[kept.gate] == made.gate
    && kept.token in k.tokens && k.tokens[kept.token] == made.token
  }

  /** The decisions on the run, in order. */
  function OfRun(decisions: seq<W.ApprovalDecision>, r: W.RunId): seq<W.ApprovalDecision> {
    if decisions == [] then []
    else
      var last := decisions[|decisions| - 1];
      OfRun(decisions[..|decisions| - 1], r) + if last.run == r then [last] else []
  }

  lemma OfRunSnoc(decisions: seq<W.ApprovalDecision>, last: W.ApprovalDecision, r: W.RunId)
    ensures OfRun(decisions + [last], r) == OfRun(decisions, r) + if last.run == r then [last] else []
  {
    assert (decisions + [last])[..|decisions|] == decisions;
  }

  lemma {:induction false} OfRunNone(decisions: seq<W.ApprovalDecision>, r: W.RunId)
    requires forall i :: 0 <= i < |decisions| ==> decisions[i].run != r
    ensures OfRun(decisions, r) == []
    decreases |decisions|
  {
    if decisions != [] {
      OfRunNone(decisions[..|decisions| - 1], r);
    }
  }

  lemma {:induction false} OfRunStored(decisions: seq<W.ApprovalDecision>, r: W.RunId, i: nat) returns (j: nat)
    requires i < |OfRun(decisions, r)|
    ensures j < |decisions| && decisions[j] == OfRun(decisions, r)[i] && decisions[j].run == r
    decreases |decisions|
  {
    var n := |decisions| - 1;
    if i < |OfRun(decisions[..n], r)| {
      j := OfRunStored(decisions[..n], r, i);
    } else {
      j := n;
    }
  }

  /** The two logs hold the same rulings on the run, one for one and in the same order. */
  ghost predicate DecisionsAgree(names: seq<StepName>, made: seq<P.Decision>, decisions: seq<W.ApprovalDecision>,
                                 r: W.RunId, k: Link)
  {
    && |made| == |OfRun(decisions, r)|
    && forall i :: 0 <= i < |made| ==> SameRuling(names, made[i], OfRun(decisions, r)[i], k)
  }

  /** New identifiers clash with none in use. */
  ghost predicate Below(m: map<nat, nat>, from: nat, to: nat) {
    forall a <- m :: a < from && m[a] < to
  }

  ghost predicate DeskAgree(names: seq<StepName>, d: P.Desk, w: W.Desk, r: W.RunId, k: Link) {
    && Injective(k.gates) && Injective(k.tokens)
    && Below(k.gates, w.nextId, d.nextId) && Below(k.tokens, w.nextId, d.nextId)
    && GatesAgree(names, d.gates, w.gates, r, k.gates)
    && TokensAgree(names, d.tokens, w.tokens, r, k)
    && DecisionsAgree(names, d.decisions, w.decisions, r, k)
    && (forall g <- w.gates :: g < w.nextId) && (forall t <- w.tokens :: t < w.nextId)
  }

  /** A link that only gains identifiers keeps the decisions matched. */
  lemma LinkGrows(names: seq<StepName>, made: seq<P.Decision>, decisions: seq<W.ApprovalDecision>, r: W.RunId,
                  k: Link, k': Link)
    requires DecisionsAgree(names, made, decisions, r, k)
    requires forall g <- k.gates :: g in k'.gates && k'.gates[g] == k.gates[g]
    requires forall t <- k.tokens :: t in k'.tokens && k'.tokens[t] == k.tokens[t]
    ensures DecisionsAgree(names, made, decisions, r, k')
  {
    hide OfRun;
  }

  // ----- Asking for approval -----

  lemma Extended(m: map<nat, nat>, a: nat, b: nat)
    requires Injective(m) && Below(m, a, b)
    ensures Injective(m[a := b]) && Below(m[a := b], a + 1, b + 1) && a !in m
  {
  }

  lemma GatesGrow(names: seq<StepName>, d: P.Desk, w: W.Desk, r: W.RunId, k: Link, i: nat, role: Standing)
    requires DeskAgree(names, d, w, r, k) && i < |names| && w.nextId !in k.gates
    ensures GatesAgree(names, P.AddGate(d, i, role).gates,
                       w.gates[w.nextId := W.GateRequest(r, names[i], role,
                                                         GatePending)], r, k.gates[w.nextId := d.nextId])
  {
    hide DecisionsAgree, TokensAgree;
    var pg := P.AddGate(d, i, role).gates;
    var wg := w.gates[w.nextId := W.GateRequest(r, names[i], role, GatePending)];
    var m := k.gates[w.nextId := d.nextId];
    forall g: nat
      ensures GateOk(names, pg, wg, r, m, g)
    {
      assert GateOk(names, d.gates, w.gates, r, k.gates, g);
    }
  }

  lemma TokensStand(names: seq<StepName>, pt: map<nat, P.Token>, wt: map<nat, W.ApprovalToken>, r: W.RunId, k: Link,
                    k': Link)
    requires TokensAgree(names, pt, wt, r, k) && k'.tokens == k.tokens
    requires forall g <- k.gates :: g in k'.gates && k'.gates[g] == k.gates[g]
    ensures TokensAgree(names, pt, wt, r, k')
  {
    forall t: nat
      ensures TokenOk(names, pt, wt, r, k', t)
    {
      assert TokenOk(names, pt, wt, r, k, t);
    }
  }

  lemma GateAdded(names: seq<StepName>, d: P.Desk, w: W.Desk, r: W.RunId, k: Link, i: nat, role: Standing)
    returns (k': Link)
    requires DeskAgree(names, d, w, r, k) && i < |names|
    ensures k' == k.(gates := k.gates[w.nextId := d.nextId])
    ensures var asked := w.(gates := w.gates[w.nextId := W.GateRequest(r, names[i], role, GatePending)],
                            nextId := w.nextId + 1);
      DeskAgree(names, P.AddGate(d, i, role), asked, r, k')
  {
    var asked := w.(gates := w.gates[w.nextId := W.GateRequest(r, names[i], role, GatePending)],
                    nextId := w.nextId + 1);
    var d' := P.AddGate(d, i, role);
    k' := k.(gates := k.gates[w.nextId := d.nextId]);
    Extended(k.gates, w.nextId, d.nextId);
    LinkGrows(names, d.decisions, w.decisions, r, k, k');
    hide DecisionsAgree;
    GatesGrow(names, d, w, r, k, i, role);
    TokensStand(names, d.tokens, w.tokens, r, k, k');
    hide GatesAgree, TokensAgree;
  }

  lemma TokenAdded(names: seq<StepName>, d: P.Desk, w: W.Desk, r: W.RunId, k: Link, gate: nat, token: W.ApprovalToken)
    returns (k': Link)
    requires DeskAgree(names, d, w, r, k) && gate in k.gates
    requires k.gates[gate] in d.gates && gate in w.gates
    requires token.gate == gate && token.run == r && token.step == w.gates[gate].step && !token.used
    ensures k' == k.(tokens := k.tokens[w.nextId := d.nextId])
    ensures DeskAgree(names, P.AddToken(d, k.gates[gate]), w.(tokens := w.tokens[w.nextId := token],
                                                              nextId := w.nextId + 1), r, k')
  {
    var w' := w.(tokens := w.tokens[w.nextId := token], nextId := w.nextId + 1);
    var d' := P.AddToken(d, k.gates[gate]);
    k' := k.(tokens := k.tokens[w.nextId := d.nextId]);
    Extended(k.tokens, w.nextId, d.nextId);
    LinkGrows(names, d.decisions, w.decisions, r, k, k');
    hide DecisionsAgree;
    assert GateOk(names, d.gates, w.gates, r, k.gates, gate);
    forall t: nat
      ensures TokenOk(names, d'.tokens, w'.tokens, r, k', t)
    {
      assert TokenOk(names, d.tokens, w.tokens, r, k, t);
    }
  }

  lemma {:induction false} TokensIssued(names: seq<StepName>, d: P.Desk, w: W.Desk, r: W.RunId, k: Link, gate: nat,
                                        step: StepName, channels: seq<W.Channel>, expires: nat)
    returns (k': Link)
    requires DeskAgree(names, d, w, r, k) && gate in k.gates && k.gates[gate] in d.gates
    requires gate in w.gates && w.gates[gate].step == step
    ensures DeskAgree(names, Issue(d, k.gates[gate], |channels|), W.IssueTokens(w, gate, r, step, channels, expires),
                      r, k')
    decreases |channels|
  {
    hide DeskAgree;
    if channels == [] {
      k' := k;
    } else {
      var token := W.ApprovalToken(gate, r, step, channels[0], expires, false);
      var next := TokenAdded(names, d, w, r, k, gate, token);
      var w' := w.(tokens := w.tokens[w.nextId := token], nextId := w.nextId + 1);
      k' := TokensIssued(names, P.AddToken(d, k.gates[gate]), w', r, next, gate, step, channels[1..], expires);
    }
  }

  /** When both desks ask for the same step, they agree afterwards. */
  lemma AskAgrees(names: seq<StepName>, d: P.Desk, d': P.Desk, w: W.Desk, w': W.Desk, r: W.RunId, k: Link)
    returns (k': Link)
    requires DeskAgree(names, d, w, r, k) && SameAsk(names, d, d', w, w', r)
    ensures DeskAgree(names, d', w', r, k')
  {
    hide DeskAgree, W.IssueTokens, Issue;
    if d' == d && w' == w {
      k' := k;
    } else {
      var i: nat, cfg: W.GateConfig, now: nat :| AskedBoth(names, d, d', w, w', r, i, cfg, now);
      var next := GateAdded(names, d, w, r, k, i, cfg.role);
      var asked := w.(gates := w.gates[w.nextId := W.GateRequest(r, names[i], cfg.role, GatePending)],
                      nextId := w.nextId + 1);
      k' := TokensIssued(names, P.AddGate(d, i, cfg.role), asked, r, next, w.nextId, names[i], cfg.channels,
                         now + cfg.ttl);
    }
  }

  // ----- What happens to other runs -----

  predicate SameGate(w: W.Desk, w': W.Desk, r: W.RunId, g: nat) {
    && (g in w.gates && w.gates[g].run == r <==> g in w'.gates && w'.gates[g].run == r)
    && (g in w.gates && w.gates[g].run == r ==> w'.gates[g] == w.gates[g])
  }

  predicate SameToken(w: W.Desk, w': W.Desk, r: W.RunId, t: nat) {
    && (t in w.tokens && w.tokens[t].run == r <==> t in w'.tokens && w'.tokens[t].run == r)
    && (t in w.tokens && w.tokens[t].run == r ==> w'.tokens[t] == w.tokens[t])
  }

  /** Nothing of run `r` on the desk changes. */
  ghost predicate Elsewhere(w: W.Desk, w': W.Desk, r: W.RunId) {
    && w.nextId <= w'.nextId && OfRun(w'.decisions, r) == OfRun(w.decisions, r)
    && (forall g: nat :: SameGate(w, w', r, g)) && (forall t: nat :: SameToken(w, w', r, t))
    && (forall g <- w'.gates :: g < w'.nextId) && (forall t <- w'.tokens :: t < w'.nextId)
  }

  lemma ElsewhereKeeps(names: seq<StepName>, d: P.Desk, w: W.Desk, w': W.Desk, r: W.RunId, k: Link)
    requires DeskAgree(names, d, w, r, k) && Elsewhere(w, w', r)
    ensures DeskAgree(names, d, w', r, k)
  {
    hide SameRuling, OfRun;
    forall g: nat
      ensures GateOk(names, d.gates, w'.gates, r, k.gates, g)
    {
      assert GateOk(names, d.gates, w.gates, r, k.gates, g) && SameGate(w, w', r, g);
    }
    forall t: nat
      ensures TokenOk(names, d.tokens, w'.tokens, r, k, t)
    {
      assert TokenOk(names, d.tokens, w.tokens, r, k, t) && SameToken(w, w', r, t);
    }
  }

  lemma {:induction false} IssueElsewhere(w: W.Desk, gate: nat, q: W.RunId, step: StepName, channels: seq<W.Channel>,
                                          expires: nat, r: W.RunId)
    requires q != r && (forall g <- w.gates :: g < w.nextId) && (forall t <- w.tokens :: t < w.nextId)
    ensures Elsewhere(w, W.IssueTokens(w, gate, q, step, channels, expires), r)
    decreases |channels|
  {
    if channels != [] {
      var token := W.ApprovalToken(gate, q, step, channels[0], expires, false);
      var next := w.(tokens := w.tokens[w.nextId := token], nextId := w.nextId + 1);
      IssueElsewhere(next, gate, q, step, channels[1..], expires, r);
      assert Elsewhere(w, next, r);
      ElsewhereOn(w, next, W.IssueTokens(next, gate, q, step, channels[1..], expires), r);
    }
  }

  lemma ElsewhereOn(a: W.Desk, b: W.Desk, c: W.Desk, r: W.RunId)
    requires Elsewhere(a, b, r) && Elsewhere(b, c, r)
    ensures Elsewhere(a, c, r)
  {
    forall g: nat
      ensures SameGate(a, c, r, g)
    {
      assert SameGate(a, b, r, g) && SameGate(b, c, r, g);
    }
    forall t: nat
      ensures SameToken(a, c, r, t)
    {
      assert SameToken(a, b, r, t) && SameToken(b, c, r, t);
    }
  }

  lemma OpenElsewhere(w: W.Desk, q: W.RunId, step: StepName, cfg: W.GateConfig, now: nat, r: W.RunId)
    requires q != r && (forall g <- w.gates :: g < w.nextId) && (forall t <- w.tokens :: t < w.nextId)
    ensures Elsewhere(w, W.OpenGate(w, q, step, cfg, now), r)
  {
    hide W.IssueTokens;
    var next := w.(gates := w.gates[w.nextId := W.GateRequest(q, step, cfg.role, GatePending)], nextId := w.nextId + 1);
    assert Elsewhere(w, next, r);
    IssueElsewhere(next, w.nextId, q, step, cfg.channels, now + cfg.ttl, r);
    ElsewhereOn(w, next, W.OpenGate(w, q, step, cfg, now), r);
  }

  /** The outputs recorded for other runs stay. */
  ghost predicate SameOutputs(w: W.World, v: W.World, q: W.RunId) {
    forall c: W.Call :: c.run != q ==> (W.Recorded(v, c) <==> W.Recorded(w, c))
  }

  lemma PaceOutputs(w: W.World, q: W.RunId, def: W.WorkflowDef, i: nat, answer: W.Outcome, now: nat,
                    comps: seq<W.Compensation>)
    requires W.Present(w, q) && i < |w.steps[q]|
    ensures SameOutputs(w, R.WorldOf(W.Pace(w, q, def, i, answer, now, comps)), q)
  {
    hide W.OpenGate, W.Reverse;
  }

  lemma {:induction false} WalkOutputs(w: W.World, q: W.RunId, def: W.WorkflowDef, i: nat, oracle: seq<W.Outcome>,
                                       now: nat, comps: seq<W.Compensation>)
    requires W.Present(w, q) && i <= |w.steps[q]| == |oracle|
    ensures SameOutputs(w, W.Walk(w, q, def, i, oracle, now, comps).world, q)
    decreases |oracle| - i
  {
    hide W.Pace, W.Recorded;
    if i < |oracle| {
      PaceOutputs(w, q, def, i, oracle[i], now, comps);
      var p := W.Pace(w, q, def, i, oracle[i], now, comps);
      if p.Onward? {
        WalkOutputs(p.next, q, def, i + 1, oracle, now, p.comps);
      }
    } else {
      SettleOutputs(w, q);
    }
  }

  lemma SettleOutputs(w: W.World, q: W.RunId)
    requires q in w.runs
    ensures SameOutputs(w, W.Settle(w, q, RunStatus.Succeeded, W.Completed).world, q)
  {
  }

  // ----- A resolve call on both sides -----

  lemma SpendAgrees(names: seq<StepName>, d: P.Desk, w: W.Desk, r: W.RunId, k: Link, t: nat)
    requires DeskAgree(names, d, w, r, k) && t in k.tokens && t in w.tokens && k.tokens[t] in d.tokens
    ensures DeskAgree(names, SpentDesk(d, k.tokens[t]), W.Spend(w, t), r, k)
  {
    hide DecisionsAgree;
    var d', w' := SpentDesk(d, k.tokens[t]), W.Spend(w, t);
    assert TokenOk(names, d.tokens, w.tokens, r, k, t);
    forall u: nat
      ensures TokenOk(names, d'.tokens, w'.tokens, r, k, u)
    {
      assert TokenOk(names, d.tokens, w.tokens, r, k, u);
    }
  }

  lemma FlipAgrees(names: seq<StepName>, d: P.Desk, w: W.Desk, r: W.RunId, k: Link, g: nat, status: GateStatus)
    requires DeskAgree(names, d, w, r, k) && g in k.gates && g in w.gates && k.gates[g] in d.gates
    ensures var pg := d.gates[k.gates[g] := d.gates[k.gates[g]].(status := status)];
      DeskAgree(names, d.(gates := pg), w.(gates := w.gates[g := w.gates[g].(status := status)]), r, k)
  {
    hide DecisionsAgree;
    var pg := d.gates[k.gates[g] := d.gates[k.gates[g]].(status := status)];
    var wg := w.gates[g := w.gates[g].(status := status)];
    assert GateOk(names, d.gates, w.gates, r, k.gates, g);
    forall h: nat
      ensures GateOk(names, pg, wg, r, k.gates, h)
    {
      assert GateOk(names, d.gates, w.gates, r, k.gates, h);
    }
    forall t: nat
      ensures TokenOk(names, d.tokens, w.tokens, r, k, t)
    {
      assert TokenOk(names, d.tokens, w.tokens, r, k, t);
    }
  }

  lemma DecisionAgrees(names: seq<StepName>, d: P.Desk, w: W.Desk, r: W.RunId, k: Link, made: P.Decision,
                       kept: W.ApprovalDecision)
    requires DeskAgree(names, d, w, r, k) && kept.run == r && SameRuling(names, made, kept, k)
    ensures DeskAgree(names, d.(decisions := d.decisions + [made]), w.(decisions := w.decisions + [kept]), r, k)
  {
    hide GateOk, TokenOk, SameRuling, OfRun;
    OfRunSnoc(w.decisions, kept, r);
  }

  lemma DeskFree(c: P.Core, w: W.World, r: W.RunId, d: W.Desk)
    requires Agree(c, w, r)
    ensures Agree(c, w.(desk := d), r)
  {
    hide P.Recorded, W.Recorded;
    SameRecords(c, c, w, w.(desk := d), r);
  }

  lemma IndexAgrees(c: P.Core, w: W.World, r: W.RunId, i: nat)
    requires Agree(c, w, r) && Distinct(c.names) && i < |c.steps|
    ensures W.IndexOf(w.steps[r], c.names[i]) == i
  {
    hide W.IndexOf;
    var j := W.IndexOf(w.steps[r], c.names[i]);
    assert c.steps[i].name == c.names[i];
    if j < |c.steps| {
      assert c.steps[j].name == c.names[j];
    }
  }

  /** A ruling has the same effect on the stored run in both models. */
  lemma RuledAgrees(c: P.Core, w: W.World, r: W.RunId, p: W.Payload, approve: bool, actor: Standing,
                    channel: W.Channel, i: nat)
    requires Agree(c, w, r) && Distinct(c.names) && i < |c.steps| && p.gate in w.desk.gates
    requires p.run == r && i < |c.names| && p.step == c.names[i]
    ensures Agree(RuledCore(c, i, approve), W.Rule(w, p, approve, actor, channel).world, r)
  {
    hide Agree, W.RecordDecision, W.IndexOf, P.Complete;
    var ruled := w.(desk := W.RecordDecision(w.desk, p, approve, actor, channel));
    var to := if approve then RunStatus.Running else Rejected;
    DeskFree(c, w, r, ruled.desk);
    AgreePresent(c, w, r);
    if LegalRun(c.status, to) {
      StatusAgrees(c, ruled, r, w.runs[r].(status := to));
      if approve {
        var c1, w1 := c.(status := to), W.MoveRun(ruled, r, to);
        AgreeSteps(c, w, r, i);
        IndexAgrees(c, w, r, i);
        var done := c.steps[i].(status := StepStatus.Succeeded);
        Claimed(c1, w1, r, i, done);
        var c2, w2 := P.WriteStep(c1, i, done), W.PutStep(w1, r, i, done);
        CompleteAgrees(c2, w2, r, i);
      }
    }
  }

  lemma CompleteAgrees(c: P.Core, w: W.World, r: W.RunId, i: nat)
    requires Agree(c, w, r)
    ensures Agree(P.Complete(c, i), w, r)
  {
    hide Agree;
    var c' := P.Complete(c, i);
    Observed(c, w, r, c'.log, c.successes, w.calls);
    assert c' == c.(log := c'.log, successes := c.successes);
    assert w == w.(calls := w.calls);
  }

  /** The desks after a ruling, step by step. */
  lemma RuledDesksAgree(names: seq<StepName>, d: P.Desk, w: W.Desk, r: W.RunId, k: Link, p: W.Payload, approve: bool,
                        actor: Standing, channel: W.Channel)
    requires DeskAgree(names, d, w, r, k) && p.run == r && W.Genuine(w, p) && p.gate in w.gates
    ensures p.token in k.tokens && k.tokens[p.token] in d.tokens && d.tokens[k.tokens[p.token]].gate in d.gates
    ensures DeskAgree(names, RuledDesk(d, k.tokens[p.token], approve, actor),
                      W.RecordDecision(W.Spend(w, p.token), p, approve, actor, channel), r, k)
  {
    LinkedToken(names, d, w, r, k, p);
    hide DeskAgree;
    var t := k.tokens[p.token];
    var d1, w1 := SpentDesk(d, t), W.Spend(w, p.token);
    SpendAgrees(names, d, w, r, k, p.token);
    var made := P.Decision(d.tokens[t].gate, d.tokens[t].step, approve, actor, t);
    var kept := W.ApprovalDecision(p.gate, p.run, p.step, approve, actor, channel, p.token);
    DecisionAgrees(names, d1, w1, r, k, made, kept);
    var d2, w2 := d1.(decisions := d1.decisions + [made]), w1.(decisions := w1.decisions + [kept]);
    FlipAgrees(names, d2, w2, r, k, p.gate, if approve then Approved else RejectedGate);
  }

  /** A genuine token of the run has its counterpart, with the same gate, step and use. */
  lemma LinkedToken(names: seq<StepName>, d: P.Desk, w: W.Desk, r: W.RunId, k: Link, p: W.Payload)
    requires DeskAgree(names, d, w, r, k) && p.run == r && W.Genuine(w, p) && p.gate in w.gates
    ensures p.token in k.tokens && k.tokens[p.token] in d.tokens && p.gate in k.gates
    ensures var token := d.tokens[k.tokens[p.token]];
      && token.gate == k.gates[p.gate] && token.gate in d.gates && token.used == w.tokens[p.token].used
      && token.step < |names| && names[token.step] == p.step
      && d.gates[token.gate].role == w.gates[p.gate].role && d.gates[token.gate].status == w.gates[p.gate].status
  {
    assert TokenOk(names, d.tokens, w.tokens, r, k, p.token);
    assert GateOk(names, d.gates, w.gates, r, k.gates, p.gate);
  }

  /** The protocol performs a resolve call with an unspent genuine token. */
  lemma ResolverRun(names: seq<StepName>, s: P.State, t: nat, approve: bool, actor: Standing) returns (u: P.State)
    requires T.Reachable(names, s) && t in s.desk.tokens && !s.desk.tokens[t].used
    requires s.desk.tokens[t].gate in s.desk.gates && s.desk.tokens[t].step < |s.core.steps|
    ensures T.Reachable(names, u)
    ensures if Admits(s.desk, t, actor)
      then u.core == RuledCore(s.core, s.desk.tokens[t].step, approve) && u.desk == RuledDesk(s.desk, t, approve, actor)
      else u.core == s.core && u.desk == SpentDesk(s.desk, t)
  {
    hide P.Exec, P.Init, RuledCore, RuledDesk, Admits;
    var before :| s == P.Exec(P.Init(names), before);
    assert Leads(P.Init(names), s);
    u := ResolveCall(s, t, approve, actor);
    LeadsOn(P.Init(names), s, u);
  }

  lemma ResolveOwn(names: seq<StepName>, s: P.State, w: W.World, defs: W.Registry, r: W.RunId, k: Link, p: W.Payload,
                   approve: bool, actor: Standing, channel: W.Channel, now: nat)
    returns (u: P.State)
    requires T.Reachable(names, s) && Distinct(names) && H.DeskInv(w.desk)
    requires Agree(s.core, w, r) && s.core.names == names && DeskAgree(names, s.desk, w.desk, r, k) && p.run == r
    ensures var v := W.Resolve(w, p, approve, actor, channel, now).world;
      T.Reachable(names, u) && Agree(u.core, v, r) && DeskAgree(names, u.desk, v.desk, r, k)
  {
    hide Agree, DeskAgree, RuledCore, RuledDesk, W.Rule, T.Reachable, MayDecide, H.Decided;
    if !W.Genuine(w.desk, p) || now > p.expires || w.desk.tokens[p.token].used {
      u := s;
    } else {
      LinkedToken(names, s.desk, w.desk, r, k, p);
      AgreePresent(s.core, w, r);
      AgreeLength(s.core, w, r);
      var t := k.tokens[p.token];
      var i := s.desk.tokens[t].step;
      u := ResolverRun(names, s, t, approve, actor);
      var spent := w.(desk := W.Spend(w.desk, p.token));
      DeskFree(s.core, w, r, spent.desk);
      if Admits(s.desk, t, actor) {
        RuledAgrees(s.core, spent, r, p, approve, actor, channel, i);
        RuledDesksAgree(names, s.desk, w.desk, r, k, p, approve, actor, channel);
        RuleDesk(spent, p, approve, actor, channel);
      } else {
        SpendAgrees(names, s.desk, w.desk, r, k, p.token);
      }
    }
  }

  lemma AgreeLength(c: P.Core, w: W.World, r: W.RunId)
    requires Agree(c, w, r)
    ensures |c.names| == |c.steps|
  {
  }

  lemma RuleDesk(w: W.World, p: W.Payload, approve: bool, actor: Standing, channel: W.Channel)
    requires p.gate in w.desk.gates
    ensures W.Rule(w, p, approve, actor, channel).world.desk == W.RecordDecision(w.desk, p, approve, actor, channel)
  {
    hide W.RecordDecision, W.IndexOf;
  }
}
