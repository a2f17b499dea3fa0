/** What asking for an approval stores and how resolving a token answers, said field by field
    (src/cam/core/orchestrator/engine.py, gates.py). */
module WorkflowDesk {
  import opened Wrappers
  import opened States
  import opened Workflow

  // ----- Asking -----

  /** `d'` is `d` with one pending gate request for the step and, under the next ids in channel order, one
      unused token per channel, each good until `ttl` after `now`. */
  ghost predicate Asked(d: Desk, d': Desk, run: RunId, step: StepName, cfg: GateConfig, now: nat) {
    var gate := d.nextId;
    var n := |cfg.channels|;
    && d'.decisions == d.decisions && d'.nextId == gate + 1 + n
    && d'.gates == d.gates[gate := GateRequest(run, step, cfg.role, GatePending)]
    && TokensAsked(d.tokens, d'.tokens, gate, run, step, cfg.channels, now + cfg.ttl)
  }

  ghost predicate TokensAsked(before: map<nat, ApprovalToken>, after: map<nat, ApprovalToken>, gate: nat, run: RunId,
                              step: StepName, channels: seq<Channel>, expires: nat)
  {
    && (forall t: nat :: gate < t <= gate + |channels| ==>
          t in after && after[t] == ApprovalToken(gate, run, step, channels[t - gate - 1], expires, false))
    && (forall t: nat :: !(gate < t <= gate + |channels|) ==>
          (t in after <==> t in before) && (t in before ==> after[t] == before[t]))
  }

  lemma {:induction false} IssuedInOrder(d: Desk, gate: nat, run: RunId, step: StepName, channels: seq<Channel>,
                                         expires: nat)
    ensures var d' := IssueTokens(d, gate, run, step, channels, expires);
      && d'.gates == d.gates && d'.decisions == d.decisions && d'.nextId == d.nextId + |channels|
      && (forall t: nat :: d.nextId <= t < d.nextId + |channels| ==>
            && t in d'.tokens
            && d'.tokens[t] == ApprovalToken(gate, run, step, channels[t - d.nextId], expires, false))
      && (forall t: nat :: !(d.nextId <= t < d.nextId + |channels|) ==>
            (t in d'.tokens <==> t in d.tokens) && (t in d.tokens ==> d'.tokens[t] == d.tokens[t]))
    decreases |channels|
  {
    if channels != [] {
      var token := ApprovalToken(gate, run, step, channels[0], expires, false);
      var next := d.(tokens := d.tokens[d.nextId := token], nextId := d.nextId + 1);
      IssuedInOrder(next, gate, run, step, channels[1..], expires);
    }
  }

  /** Opening a gate asks, whatever the desk held. */
  lemma OpenGateAsks(d: Desk, run: RunId, step: StepName, cfg: GateConfig, now: nat)
    ensures Asked(d, OpenGate(d, run, step, cfg, now), run, step, cfg, now)
  {
    hide IssueTokens;
    var asked := d.(gates := d.gates[d.nextId := GateRequest(run, step, cfg.role, GatePending)],
                     nextId := d.nextId + 1);
    IssuedInOrder(asked, d.nextId, run, step, cfg.channels, now + cfg.ttl);
  }

  /** The description leaves no choice. */
  lemma AskedUnique(d: Desk, a: Desk, b: Desk, run: RunId, step: StepName, cfg: GateConfig, now: nat)
    requires Asked(d, a, run, step, cfg, now) && Asked(d, b, run, step, cfg, now)
    ensures a == b
  {
    forall t: nat
      ensures t in a.tokens <==> t in b.tokens
      ensures t in a.tokens ==> a.tokens[t] == b.tokens[t]
    {
    }
    assert a.tokens == b.tokens;
  }

  /** A token asked for at `now` is good as long as `ttl` seconds have not passed: brought back at `t` before
      anything else happened to the gate, it is refused as expired exactly if more than `ttl` passed, and
      decides if not more than that passed and the actor has the asked role, which carries approval. */
  lemma TokenLifetime(w: World, d: Desk, run: RunId, step: StepName, cfg: GateConfig, now: nat, k: nat,
                      approve: bool, actor: Standing, channel: Channel, t: nat)
    requires Asked(d, w.desk, run, step, cfg, now) && k < |cfg.channels|
    ensures var p := Payload(d.nextId + 1 + k, d.nextId, run, step, now + cfg.ttl);
      var ruling := Resolve(w, p, approve, actor, channel, t).ruling;
      && (ruling == Refused(401) <==> t - now > cfg.ttl)
      && (t - now <= cfg.ttl && actor == cfg.role && (actor == Some(Attorney) || actor == Some(Admin)) ==>
            !ruling.Refused?)
  {
    hide Rule;
    var p := Payload(d.nextId + 1 + k, d.nextId, run, step, now + cfg.ttl);
    assert p.token in w.desk.tokens;
    assert Genuine(w.desk, p);
    if t - now <= cfg.ttl {
      RuleIsNoRefusal(w.(desk := Spend(w.desk, p.token)), p, approve, actor, channel);
    }
  }

  lemma RuleIsNoRefusal(w: World, p: Payload, approve: bool, actor: Standing, channel: Channel)
    requires p.gate in w.desk.gates
    ensures !Rule(w, p, approve, actor, channel).ruling.Refused?
  {
  }

  // ----- Resolving -----

  /** The payload is that of a stored token. */
  predicate Stored(d: Desk, p: Payload) {
    p.token in d.tokens &&
    var token := d.tokens[p.token];
    token == ApprovalToken(p.gate, p.run, p.step, token.channel, p.expires, token.used)
  }

  /** `v` is `w` with the token spent and nothing else changed. */
  predicate OnlySpent(w: World, v: World, t: nat) {
    && t in w.desk.tokens && v == w.(desk := v.desk)
    && v.desk == w.desk.(tokens := w.desk.tokens[t := w.desk.tokens[t].(used := true)])
  }

  /** The call is refused: 401 for a payload nobody was issued or one past its expiry, 409 for a spent
      token, and these change nothing; 404 for a gate that is not stored, 409 for one decided already, 403
      for an actor without exactly the asked role or whose role does not carry approval, and these spend
      the token. */
  predicate Refuses(w: World, v: World, p: Payload, actor: Standing, now: nat, code: nat) {
    if !Stored(w.desk, p) || now > p.expires then code == 401 && v == w
    else if w.desk.tokens[p.token].used then code == 409 && v == w
    else
      && OnlySpent(w, v, p.token)
      && if p.gate !in w.desk.gates then code == 404
         else if w.desk.gates[p.gate].status != GatePending then code == 409
         else code == 403 && (actor != w.desk.gates[p.gate].role || (actor != Some(Attorney) && actor != Some(Admin)))
  }

  /** The decision is stored, its token spent and its gate decided. */
  predicate DecisionStored(d: Desk, d': Desk, p: Payload, approve: bool, actor: Standing, channel: Channel)
    requires p.token in d.tokens && p.gate in d.gates
  {
    && d'.nextId == d.nextId
    && d'.decisions == d.decisions + [ApprovalDecision(p.gate, p.run, p.step, approve, actor, channel, p.token)]
    && d'.tokens == d.tokens[p.token := d.tokens[p.token].(used := true)]
    && d'.gates == d.gates[p.gate := d.gates[p.gate].(status := if approve then Approved else RejectedGate)]
  }

  /** Exactly the first step of that name is marked succeeded, if there is one. */
  ghost predicate FirstMarked(before: seq<Step>, after: seq<Step>, name: StepName) {
    && |after| == |before|
    && forall i :: 0 <= i < |before| ==>
         after[i] == if before[i].name == name && (forall j :: 0 <= j < i ==> before[j].name != name)
                     then before[i].(status := StepStatus.Succeeded) else before[i]
  }

  /** The run moves: on approval from queued, awaiting approval or parked to running, with its gate step
      marked; on rejection from awaiting approval to rejected. Elsewhere the move is refused and runs and
      steps stay. */
  ghost predicate RunFollows(w: World, v: World, p: Payload, approve: bool, ruling: Ruling) {
    && v == w.(desk := v.desk, runs := v.runs, steps := v.steps)
    && if p.run in w.runs
          && (w.runs[p.run].status == AwaitingApproval
              || (approve && (w.runs[p.run].status == Queued || w.runs[p.run].status == Parked)))
       then
         && ruling == RulingRecorded
         && v.runs == w.runs[p.run := w.runs[p.run].(status := if approve then RunStatus.Running else Rejected)]
         && v.steps.Keys == w.steps.Keys
         && (forall q :: q in w.steps && q != p.run ==> v.steps[q] == w.steps[q])
         && (p.run in w.steps ==>
               if approve then FirstMarked(w.steps[p.run], v.steps[p.run], p.step)
               else v.steps[p.run] == w.steps[p.run])
       else ruling == Stuck && v.runs == w.runs && v.steps == w.steps
  }

  /** What a resolve call answers and leaves behind, in full. */
  ghost predicate Resolves(w: World, v: World, p: Payload, approve: bool, actor: Standing, channel: Channel, now: nat,
                           ruling: Ruling)
  {
    if ruling.Refused? then Refuses(w, v, p, actor, now, ruling.code)
    else
      && Stored(w.desk, p) && now <= p.expires && !w.desk.tokens[p.token].used && p.gate in w.desk.gates
      && w.desk.gates[p.gate].status == GatePending && actor == w.desk.gates[p.gate].role
      && (actor == Some(Attorney) || actor == Some(Admin))
      && DecisionStored(w.desk, v.desk, p, approve, actor, channel)
      && RunFollows(w, v, p, approve, ruling)
  }

  lemma AdvanceMarks(w: World, r: RunId, name: StepName)
    requires r in w.steps
    ensures var v := AdvanceGateStep(w, r, name);
      v == w.(steps := v.steps) && v.steps.Keys == w.steps.Keys
      && (forall q :: q in w.steps && q != r ==> v.steps[q] == w.steps[q])
      && FirstMarked(w.steps[r], v.steps[r], name)
  {
  }

  lemma RuleFollows(w: World, p: Payload, approve: bool, actor: Standing, channel: Channel)
    requires p.gate in w.desk.gates
    ensures var x := Rule(w, p, approve, actor, channel); RunFollows(w, x.world, p, approve, x.ruling)
  {
    hide FirstMarked, AdvanceGateStep, RecordDecision;
    var ruled := w.(desk := RecordDecision(w.desk, p, approve, actor, channel));
    if approve && MayMove(ruled, p.run, RunStatus.Running) {
      var moved := MoveRun(ruled, p.run, RunStatus.Running);
      if p.run in w.steps {
        AdvanceMarks(moved, p.run, p.step);
      } else {
        assert AdvanceGateStep(moved, p.run, p.step) == moved by {
          NothingMarked(moved, p.run, p.step);
        }
      }
    }
  }

  lemma NothingMarked(w: World, r: RunId, name: StepName)
    requires r !in w.steps
    ensures AdvanceGateStep(w, r, name) == w
  {
  }

  lemma RefusedAs(w: World, p: Payload, approve: bool, actor: Standing, channel: Channel, now: nat)
    requires Resolve(w, p, approve, actor, channel, now).ruling.Refused?
    ensures var x := Resolve(w, p, approve, actor, channel, now);
      Refuses(w, x.world, p, actor, now, x.ruling.code)
  {
    hide Rule;
    if Genuine(w.desk, p) && p.gate in w.desk.gates {
      RuleIsNoRefusal(w.(desk := Spend(w.desk, p.token)), p, approve, actor, channel);
    }
  }

  lemma RuledOn(w: World, p: Payload, approve: bool, actor: Standing, channel: Channel, now: nat)
    requires !Resolve(w, p, approve, actor, channel, now).ruling.Refused?
    ensures Genuine(w.desk, p) && now <= p.expires && !w.desk.tokens[p.token].used && p.gate in w.desk.gates
    ensures w.desk.gates[p.gate].status == GatePending && MayDecide(actor, w.desk.gates[p.gate].role)
    ensures Resolve(w, p, approve, actor, channel, now)
         == Rule(w.(desk := Spend(w.desk, p.token)), p, approve, actor, channel)
  {
    hide Rule;
  }

  /** Every resolve call answers and changes exactly what the description says. */
  lemma ResolveIs(w: World, p: Payload, approve: bool, actor: Standing, channel: Channel, now: nat)
    ensures var x := Resolve(w, p, approve, actor, channel, now);
      Resolves(w, x.world, p, approve, actor, channel, now, x.ruling)
  {
    hide Rule, RunFollows, Resolve;
    var x := Resolve(w, p, approve, actor, channel, now);
    if x.ruling.Refused? {
      RefusedAs(w, p, approve, actor, channel, now);
    } else {
      RuledOn(w, p, approve, actor, channel, now);
      var spent := w.(desk := Spend(w.desk, p.token));
      RuleFollows(spent, p, approve, actor, channel);
      RuleDesk(spent, p, approve, actor, channel);
      RunFollowsSpent(w, spent, x, p, approve);
    }
  }

  lemma FollowsUnique(w: World, a: World, b: World, p: Payload, approve: bool, x: Ruling, y: Ruling)
    requires RunFollows(w, a, p, approve, x) && RunFollows(w, b, p, approve, y) && a.desk == b.desk
    ensures a == b && x == y
  {
    if x == RulingRecorded {
      assert p.run in w.steps ==> a.steps[p.run] == b.steps[p.run];
    }
    assert a.steps == b.steps;
  }

  /** The description leaves no choice: it holds of exactly one answer and one outcome. */
  lemma ResolvesIff(w: World, v: World, p: Payload, approve: bool, actor: Standing, channel: Channel, now: nat,
                    ruling: Ruling)
    ensures Resolves(w, v, p, approve, actor, channel, now, ruling) <==>
      Resolve(w, p, approve, actor, channel, now) == Resolved(v, ruling)
  {
    hide Resolve, RunFollows;
    var x := Resolve(w, p, approve, actor, channel, now);
    ResolveIs(w, p, approve, actor, channel, now);
    if Resolves(w, v, p, approve, actor, channel, now, ruling) && !ruling.Refused? && !x.ruling.Refused? {
      FollowsUnique(w, v, x.world, p, approve, ruling, x.ruling);
    }
  }

  lemma RuleDesk(w: World, p: Payload, approve: bool, actor: Standing, channel: Channel)
    requires p.gate in w.desk.gates
    ensures Rule(w, p, approve, actor, channel).world.desk == RecordDecision(w.desk, p, approve, actor, channel)
  {
  }

  lemma RunFollowsSpent(w: World, spent: World, x: Resolved, p: Payload, approve: bool)
    requires spent == w.(desk := spent.desk) && RunFollows(spent, x.world, p, approve, x.ruling)
    ensures RunFollows(w, x.world, p, approve, x.ruling)
  {
  }
}
