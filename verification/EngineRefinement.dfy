/** The engine's whole pass, as the sequential model gives it, is one of the interleavings of the
    protocol: a single worker moving store call by store call. */
module EngineRefinement {
  import opened Wrappers
  import opened States
  import P = Protocol
  import T = ProtocolTheorems
  import opened ProtocolRuns
  import W = Workflow

  // ----- A worker moving alone -----

  function Local(c: P.Core, d: P.Desk, p: P.Phase, choices: seq<P.Choice>): P.Move
    decreases |choices|
  {
    if choices == [] then P.Made(c, d, p)
    else
      var m := P.TickWorker(c, d, p, choices[0]);
      Local(m.core, m.desk, m.phase, choices[1..])
  }

  lemma {:induction false} LocalConcat(c: P.Core, d: P.Desk, p: P.Phase, a: seq<P.Choice>, b: seq<P.Choice>)
    ensures var m := Local(c, d, p, a);
      Local(c, d, p, a + b) == Local(m.core, m.desk, m.phase, b)
    decreases |a|
  {
    hide P.TickWorker;
    if a == [] {
      assert a + b == b;
    } else {
      var m := P.TickWorker(c, d, p, a[0]);
      assert (a + b)[1..] == a[1..] + b;
      LocalConcat(m.core, m.desk, m.phase, a[1..], b);
    }
  }

  function Ticks(v: nat, choices: seq<P.Choice>): seq<P.Event> {
    seq(|choices|, k requires 0 <= k < |choices| => P.Tick(v, choices[k]))
  }

  /** A worker's ticks in the whole system do what it does alone. */
  lemma {:induction false} LocalIsExec(s: P.State, v: nat, choices: seq<P.Choice>)
    requires v in s.workers
    ensures var m := Local(s.core, s.desk, s.workers[v], choices);
      P.Exec(s, Ticks(v, choices)) == P.State(m.core, m.desk, s.workers[v := m.phase], s.resolvers)
    decreases |choices|
  {
    hide P.TickWorker;
    if choices == [] {
      assert s.workers[v := s.workers[v]] == s.workers;
    } else {
      var t := P.MoveWorker(s, v, choices[0]);
      assert Ticks(v, choices)[0] == P.Tick(v, choices[0]);
      assert Ticks(v, choices)[1..] == Ticks(v, choices[1..]);
      LocalIsExec(t, v, choices[1..]);
    }
  }

  // ----- What the two models agree on -----

  /** The stored run of the protocol is run `r` of the world. */
  ghost predicate Agree(c: P.Core, w: W.World, r: W.RunId) {
    && W.Present(w, r)
    && c.status == w.runs[r].status && c.steps == w.steps[r]
    && |c.names| == |c.steps| && (forall i :: 0 <= i < |c.names| ==> c.steps[i].name == c.names[i])
    && forall i :: 0 <= i < |c.names| ==> (P.Recorded(c, i) <==> W.Recorded(w, W.Call(r, c.names[i])))
  }

  /** The worker's snapshot is right from step `i` on. */
  predicate FreshFrom(c: P.Core, snap: seq<Step>, i: nat) {
    |snap| == |c.steps| && forall j :: i <= j < |snap| ==> snap[j] == c.steps[j]
  }

  /** The protocol's desk with `left` more tokens for a gate. */
  function Issue(d: P.Desk, gate: nat, left: nat): P.Desk
    requires gate in d.gates
    decreases left
  {
    if left == 0 then d else Issue(P.AddToken(d, gate), gate, left - 1)
  }

  /** The protocol's desk after step `i` has asked for approval. */
  function Asked(d: P.Desk, i: nat, cfg: W.GateConfig): P.Desk {
    Issue(P.AddGate(d, i, cfg.role), d.nextId, |cfg.channels|)
  }

  /** Both desks are unchanged, or the same gate step has asked on both. */
  ghost predicate SameAsk(names: seq<StepName>, d: P.Desk, d': P.Desk, w: W.Desk, w': W.Desk, r: W.RunId) {
    (d' == d && w' == w) || exists i: nat, cfg, now: nat :: AskedBoth(names, d, d', w, w', r, i, cfg, now)
  }

  predicate AskedBoth(names: seq<StepName>, d: P.Desk, d': P.Desk, w: W.Desk, w': W.Desk, r: W.RunId,
                      i: nat, cfg: W.GateConfig, now: nat)
  {
    i < |names| && d' == Asked(d, i, cfg) && w' == W.OpenGate(w, r, names[i], cfg, now)
  }

  /** A finished local run: the worker is gone and the stored run is the world's. */
  ghost predicate Left(m: P.Move, w: W.World, r: W.RunId) {
    m.phase == P.Gone && Agree(m.core, w, r)
  }

  lemma Settled(c: P.Core, w: W.World, r: W.RunId, to: RunStatus, end: W.End)
    requires Agree(c, w, r)
    ensures Agree(P.SetStatus(c, to), W.Settle(w, r, to, end).world, r)
  {
    hide Agree;
    AgreePresent(c, w, r);
    if LegalRun(c.status, to) {
      StatusAgrees(c, w, r, w.runs[r].(status := to));
    }
  }

  lemma StatusAgrees(c: P.Core, w: W.World, r: W.RunId, run: W.Run)
    requires Agree(c, w, r)
    ensures Agree(c.(status := run.status), W.PutRun(w, r, run), r)
  {
    hide P.Recorded, W.Recorded;
    var c', w' := c.(status := run.status), W.PutRun(w, r, run);
    SameRecords(c, c', w, w', r);
  }

  lemma SameRecords(c: P.Core, c': P.Core, w: W.World, w': W.World, r: W.RunId)
    requires c'.idem == c.idem && c'.names == c.names && w'.idem == w.idem
    ensures forall i :: 0 <= i < |c.names| ==> P.Recorded(c', i) == P.Recorded(c, i)
    ensures forall i :: 0 <= i < |c.names| ==>
      W.Recorded(w', W.Call(r, c.names[i])) == W.Recorded(w, W.Call(r, c.names[i]))
  {
  }

  // ----- One round of the step loop -----

  /** From visiting step `i`, the moves that take the worker through a gate to the end of its pass. */
  lemma {:induction false} IssueAll(c: P.Core, d: P.Desk, gate: nat, left: nat) returns (choices: seq<P.Choice>)
    requires gate in d.gates
    ensures var m := Local(c, d, P.IssueTokens(gate, left), choices);
      m == P.Made(P.SetStatus(c, AwaitingApproval), Issue(d, gate, left), P.Gone)
    decreases left
  {
    if left == 0 {
      choices := [P.Proceed, P.Proceed];
      assert choices[1..] == [P.Proceed] && choices[1..][1..] == [];
    } else {
      var rest := IssueAll(c, P.AddToken(d, gate), gate, left - 1);
      choices := [P.Proceed] + rest;
      assert choices[1..] == rest;
    }
  }

  lemma LocalStep(c: P.Core, d: P.Desk, p: P.Phase, first: P.Choice, rest: seq<P.Choice>)
    ensures var m := P.TickWorker(c, d, p, first);
      Local(c, d, p, [first] + rest) == Local(m.core, m.desk, m.phase, rest)
  {
    hide P.TickWorker;
    assert ([first] + rest)[1..] == rest;
  }

  /** What one round leads to: on to the next step with the stores still in agreement, or out. */
  ghost predicate Onward(m: P.Move, w: W.World, r: W.RunId, i: nat) {
    m.phase.Visit? && m.phase.i == i && Agree(m.core, w, r) && FreshFrom(m.core, m.phase.snap, i)
  }

  lemma GateRound(c: P.Core, d: P.Desk, w: W.World, r: W.RunId, i: nat, snap: seq<Step>, cfg: W.GateConfig,
                  desk: W.Desk)
    returns (choices: seq<P.Choice>)
    requires Agree(c, w, r) && FreshFrom(c, snap, i) && i < |snap|
    requires !Finished(snap[i].status) && IsGate(snap[i].name)
    ensures Left(Local(c, d, P.Visit(i, snap), choices), W.Settle(w.(desk := desk), r, AwaitingApproval,
                                                                  W.AtGate).world, r)
    ensures Local(c, d, P.Visit(i, snap), choices).desk == Asked(d, i, cfg)
  {
    hide W.Settle, Local, P.SetStatus, Issue;
    var channels := P.Channels(|cfg.channels|, cfg.role);
    var rest := IssueAll(c, P.AddGate(d, i, cfg.role), d.nextId, |cfg.channels|);
    choices := [P.Proceed] + ([channels] + rest);
    LocalStep(c, d, P.Visit(i, snap), P.Proceed, [channels] + rest);
    LocalStep(c, d, P.OpenGate(i), channels, rest);
    Settled(c, w.(desk := desk), r, AwaitingApproval, W.AtGate);
  }

  /** The claim of a step writes the same record in both models. */
  lemma Claimed(c: P.Core, w: W.World, r: W.RunId, i: nat, step: Step)
    requires Agree(c, w, r) && i < |c.steps| && step.name == c.steps[i].name
    ensures Agree(P.WriteStep(c, i, step), W.PutStep(w, r, i, step), r)
  {
  }

  lemma Observed(c: P.Core, w: W.World, r: W.RunId, log: seq<nat>, successes: seq<nat>, calls: seq<W.Call>)
    requires Agree(c, w, r)
    ensures Agree(c.(log := log, successes := successes), w.(calls := calls), r)
  {
  }

  lemma RecordedBoth(c: P.Core, w: W.World, r: W.RunId, i: nat, out: Output)
    requires Agree(c, w, r) && i < |c.steps| && Distinct(c.names)
    ensures Agree(P.ReserveKey(c, i).(idem := P.ReserveKey(c, i).idem[i := out]),
                  W.RecordOutput(w, W.Call(r, c.names[i]), out), r)
  {
    var c' := P.ReserveKey(c, i).(idem := P.ReserveKey(c, i).idem[i := out]);
    var w' := W.RecordOutput(w, W.Call(r, c.names[i]), out);
    forall j | 0 <= j < |c.names|
      ensures P.Recorded(c', j) <==> W.Recorded(w', W.Call(r, c.names[j]))
    {
      if j != i {
        assert c.names[j] != c.names[i];
        assert P.Recorded(c, j) <==> W.Recorded(w, W.Call(r, c.names[j]));
      }
    }
  }

  lemma CurrentSet(c: P.Core, w: W.World, r: W.RunId, name: StepName)
    requires Agree(c, w, r)
    ensures Agree(c, W.SetCurrent(w, r, name), r)
  {
  }

  lemma SucceedDesk(w: W.World, r: W.RunId, i: nat, out: Output)
    requires W.Present(w, r) && i < |w.steps[r]|
    ensures W.Succeed(W.Invoke(w, r, i), r, i, out).desk == w.desk
  {
  }

  lemma FailureDesk(w: W.World, r: W.RunId, i: nat, failure: W.Failure, comps: seq<W.Compensation>)
    requires W.Present(w, r) && i < |w.steps[r]|
    ensures W.AfterFailure(W.Invoke(w, r, i), r, i, failure, comps).world.desk == w.desk
  {
  }

  lemma SettleDesk(w: W.World, r: W.RunId, to: RunStatus, end: W.End)
    requires r in w.runs
    ensures W.Settle(w, r, to, end).world.desk == w.desk
  {
  }

  lemma SucceedIs(w: W.World, r: W.RunId, i: nat, out: Output)
    requires W.Present(w, r) && i < |w.steps[r]|
    ensures var running := w.steps[r][i].(status := StepStatus.Running);
      var done := running.(status := StepStatus.Succeeded, output := Some(out), attempt := running.attempt + 1);
      var w2 := W.PutStep(w, r, i, running).(calls := w.calls + [W.Call(r, running.name)]);
      W.Succeed(W.Invoke(w, r, i), r, i, out)
      == W.SetCurrent(W.PutStep(W.RecordOutput(w2, W.Call(r, running.name), out), r, i, done), r, running.name)
  {
  }

  /** The stored run after a success, built up from the worker's writes. */
  lemma SuccessAgrees(c: P.Core, w: W.World, r: W.RunId, i: nat, running: Step, done: Step, out: Output)
    requires Agree(c, w, r) && i < |c.steps| && Distinct(c.names)
    requires running.name == done.name == c.steps[i].name
    ensures var c1 := P.WriteStep(c, i, running);
      var c2 := P.Complete(c1, i).(successes := P.Bump(c1.successes, i));
      var c3 := P.ReserveKey(c2, i).(idem := P.ReserveKey(c2, i).idem[i := out]);
      W.Present(w, r) && i < |w.steps[r]|
      && var w2 := W.PutStep(w, r, i, running).(calls := w.calls + [W.Call(r, running.name)]);
      Agree(P.WriteStep(c3, i, done),
            W.SetCurrent(W.PutStep(W.RecordOutput(w2, W.Call(r, running.name), out), r, i, done), r, running.name), r)
  {
    hide Agree;
    AgreeSteps(c, w, r, i);
    var c1 := P.WriteStep(c, i, running);
    var w1 := W.PutStep(w, r, i, running);
    Claimed(c, w, r, i, running);
    var c2 := P.Complete(c1, i).(successes := P.Bump(c1.successes, i));
    var w2 := w1.(calls := w.calls + [W.Call(r, running.name)]);
    assert c2 == c1.(log := c2.log, successes := c2.successes);
    Observed(c1, w1, r, c2.log, c2.successes, w2.calls);
    var c3 := P.ReserveKey(c2, i).(idem := P.ReserveKey(c2, i).idem[i := out]);
    var w3 := W.RecordOutput(w2, W.Call(r, running.name), out);
    RecordedBoth(c2, w2, r, i, out);
    Claimed(c3, w3, r, i, done);
    CurrentSet(P.WriteStep(c3, i, done), W.PutStep(w3, r, i, done), r, running.name);
  }

  lemma CurrentDesk(w: W.World, r: W.RunId, name: StepName)
    requires r in w.runs
    ensures W.SetCurrent(w, r, name).desk == w.desk
  {
  }

  /** A handler that returns: claim, invoke, reserve, record, commit. */
  lemma SuccessRound(c: P.Core, d: P.Desk, w: W.World, r: W.RunId, i: nat, snap: seq<Step>, out: Output)
    returns (choices: seq<P.Choice>)
    requires Agree(c, w, r) && FreshFrom(c, snap, i) && i < |snap| && Distinct(c.names)
    requires !Finished(snap[i].status) && !IsGate(snap[i].name) && !P.Recorded(c, i)
    requires LegalStep(snap[i].status, StepStatus.Running)
    ensures W.Present(w, r) && i < |w.steps[r]| && W.Present(W.Invoke(w, r, i), r) && i < |W.Invoke(w, r, i).steps[r]|
    ensures Onward(Local(c, d, P.Visit(i, snap), choices), W.Succeed(W.Invoke(w, r, i), r, i, out), r, i + 1)
    ensures |Local(c, d, P.Visit(i, snap), choices).phase.snap| == |snap|
    ensures Local(c, d, P.Visit(i, snap), choices).desk == d
    ensures W.Succeed(W.Invoke(w, r, i), r, i, out).desk == w.desk
  {
    hide Agree, Local, W.Succeed, W.Invoke, W.PutStep, W.RecordOutput, W.SetCurrent;
    var running := snap[i].(status := StepStatus.Running);
    var done := running.(status := StepStatus.Succeeded, output := Some(out), attempt := running.attempt + 1);
    AgreeSteps(c, w, r, i);
    SuccessAgrees(c, w, r, i, running, done, out);
    SucceedIs(w, r, i, out);
    SucceedDesk(w, r, i, out);
    FailIs(w, r, i);
    choices := SuccessMoves(c, d, i, snap, out);
  }

  lemma AgreeSteps(c: P.Core, w: W.World, r: W.RunId, i: nat)
    requires Agree(c, w, r) && i < |c.steps|
    ensures W.Present(w, r) && c.steps == w.steps[r] && c.steps[i].name == c.names[i] && |c.names| == |c.steps|
  {
  }

  lemma SuccessMoves(c: P.Core, d: P.Desk, i: nat, snap: seq<Step>, out: Output) returns (choices: seq<P.Choice>)
    requires FreshFrom(c, snap, i) && i < |snap|
    requires !Finished(snap[i].status) && !IsGate(snap[i].name) && !P.Recorded(c, i)
    requires LegalStep(snap[i].status, StepStatus.Running)
    ensures var running := snap[i].(status := StepStatus.Running);
      var done := running.(status := StepStatus.Succeeded, output := Some(out), attempt := running.attempt + 1);
      var c1 := P.WriteStep(c, i, running);
      var c2 := P.Complete(c1, i).(successes := P.Bump(c1.successes, i));
      var c3 := P.ReserveKey(c2, i).(idem := P.ReserveKey(c2, i).idem[i := out]);
      Local(c, d, P.Visit(i, snap), choices)
      == P.Made(P.WriteStep(c3, i, done), d, P.Visit(i + 1, snap[i := running]))
  {
    hide Local;
    var running := snap[i].(status := StepStatus.Running);
    var mine := snap[i := running];
    var c1 := P.WriteStep(c, i, running);
    var c2 := P.Complete(c1, i).(successes := P.Bump(c1.successes, i));
    var c2a := P.ReserveKey(c2, i);
    var c3 := c2a.(idem := c2a.idem[i := out]);
    var l1 := [P.Proceed] + [];
    var l2 := [P.Proceed] + l1;
    var l3 := [P.Proceed] + l2;
    var l4 := [P.Returned(out)] + l3;
    var l5 := [P.Proceed] + l4;
    choices := [P.Proceed] + l5;
    LocalStep(c, d, P.Visit(i, snap), P.Proceed, l5);
    LocalStep(c, d, P.Claim(i, snap), P.Proceed, l4);
    LocalStep(c1, d, P.Handling(i, mine), P.Returned(out), l3);
    LocalStep(c2, d, P.Reserve(i, mine, out), P.Proceed, l2);
    LocalStep(c2a, d, P.Record(i, mine, out), P.Proceed, l1);
    LocalStep(c3, d, P.Commit(i, mine, out), P.Proceed, []);
    var last := P.TickWorker(c3, d, P.Commit(i, mine, out), P.Proceed);
    LocalDone(last.core, last.desk, last.phase);
  }

  lemma LocalDone(c: P.Core, d: P.Desk, p: P.Phase)
    ensures Local(c, d, p, []) == P.Made(c, d, p)
  {
  }

  /** A handler that raises: claim, invoke, fail, and out through the refused retry or the park. */
  lemma FailureMoves(c: P.Core, d: P.Desk, i: nat, snap: seq<Step>, retryable: bool) returns (choices: seq<P.Choice>)
    requires FreshFrom(c, snap, i) && i < |snap|
    requires !Finished(snap[i].status) && !IsGate(snap[i].name) && !P.Recorded(c, i)
    requires LegalStep(snap[i].status, StepStatus.Running)
    ensures var failed := P.WriteStep(c, i, snap[i].(status := Failed, attempt := snap[i].attempt + 1));
      Local(c, d, P.Visit(i, snap), choices)
      == P.Made(if retryable && snap[i].attempt + 1 < MAX_ATTEMPTS then failed else P.SetStatus(failed, Parked), d,
                P.Gone)
  {
    hide Local;
    var running := snap[i].(status := StepStatus.Running);
    var mine := snap[i := running];
    var c1 := P.WriteStep(c, i, running);
    var l1 := [P.Proceed] + [];
    var l2 := [P.Proceed] + l1;
    var l3 := [P.Raised(retryable)] + l2;
    var l4 := [P.Proceed] + l3;
    choices := [P.Proceed] + l4;
    LocalStep(c, d, P.Visit(i, snap), P.Proceed, l4);
    LocalStep(c, d, P.Claim(i, snap), P.Proceed, l3);
    LocalStep(c1, d, P.Handling(i, mine), P.Raised(retryable), l2);
    LocalStep(c1, d, P.Fail(i, mine, retryable), P.Proceed, l1);
    var m := P.TickWorker(c1, d, P.Fail(i, mine, retryable), P.Proceed);
    LocalStep(m.core, m.desk, m.phase, P.Proceed, []);
    var last := P.TickWorker(m.core, m.desk, m.phase, P.Proceed);
    assert forall from :: !LegalStep(from, Pending);
    LocalDone(last.core, last.desk, last.phase);
  }

  lemma FailIs(w: W.World, r: W.RunId, i: nat)
    requires W.Present(w, r) && i < |w.steps[r]|
    ensures W.FailStep(W.Invoke(w, r, i), r, i)
         == W.PutStep(w, r, i, w.steps[r][i].(status := Failed, attempt := w.steps[r][i].attempt + 1))
              .(calls := w.calls + [W.Call(r, w.steps[r][i].name)])
    ensures W.Present(W.Invoke(w, r, i), r) && |W.Invoke(w, r, i).steps[r]| == |w.steps[r]|
    ensures W.Invoke(w, r, i).steps[r][i].attempt == w.steps[r][i].attempt
  {
    var s := w.steps[r];
    var a := s[i].(status := StepStatus.Running);
    var b := s[i].(status := Failed, attempt := s[i].attempt + 1);
    assert s[i := a][i := b] == s[i := b];
    assert w.steps[r := s[i := a]][r := s[i := b]] == w.steps[r := s[i := b]];
  }

  lemma ParkAgrees(c: P.Core, w: W.World, r: W.RunId, error: W.StepError, comps: seq<W.Compensation>)
    requires Agree(c, w, r)
    ensures Agree(P.SetStatus(c, Parked), W.ParkRun(w, r, error, comps).world, r)
  {
    hide Agree;
    AgreePresent(c, w, r);
    var undone := w.(undone := w.undone + W.Reverse(comps));
    UndoneAgrees(c, w, r, undone.undone);
    StatusAgrees(c, undone, r, w.runs[r].(status := Parked, error := Some(error)));
  }

  lemma UndoneAgrees(c: P.Core, w: W.World, r: W.RunId, undone: seq<W.Compensation>)
    requires Agree(c, w, r)
    ensures Agree(c, w.(undone := undone), r)
  {
    hide P.Recorded, W.Recorded;
    SameRecords(c, c, w, w.(undone := undone), r);
  }

  lemma FailureRound(c: P.Core, d: P.Desk, w: W.World, r: W.RunId, i: nat, snap: seq<Step>, failure: W.Failure,
                     comps: seq<W.Compensation>)
    returns (choices: seq<P.Choice>)
    requires Agree(c, w, r) && FreshFrom(c, snap, i) && i < |snap|
    requires !Finished(snap[i].status) && !IsGate(snap[i].name) && !P.Recorded(c, i)
    requires LegalStep(snap[i].status, StepStatus.Running)
    ensures W.Present(w, r) && i < |w.steps[r]| && W.Present(W.Invoke(w, r, i), r) && i < |W.Invoke(w, r, i).steps[r]|
    ensures Left(Local(c, d, P.Visit(i, snap), choices), W.AfterFailure(W.Invoke(w, r, i), r, i, failure,
          comps).world, r)
    ensures Local(c, d, P.Visit(i, snap), choices).desk == d
    ensures W.AfterFailure(W.Invoke(w, r, i), r, i, failure, comps).world.desk == w.desk
  {
    hide Agree, Local, W.Invoke, W.FailStep, W.PutStep, W.ParkRun, P.SetStatus;
    AgreeSteps(c, w, r, i);
    var failed := snap[i].(status := Failed, attempt := snap[i].attempt + 1);
    FailIs(w, r, i);
    Claimed(c, w, r, i, failed);
    var c1 := P.WriteStep(c, i, failed);
    var w1 := W.PutStep(w, r, i, failed);
    Observed(c1, w1, r, c1.log, c1.successes, w.calls + [W.Call(r, snap[i].name)]);
    var w2 := W.FailStep(W.Invoke(w, r, i), r, i);
    var error := W.Classify(failure, snap[i].attempt);
    ParkAgrees(c1, w2, r, error, comps);
    FailureDesk(w, r, i, failure, comps);
    choices := FailureMoves(c, d, i, snap, error.retryable);
  }

  // ----- The whole pass -----

  /** The worker's pass from step `i` on ends in the world that the step loop computes. */
  lemma {:induction false} WalkRefines(c: P.Core, d: P.Desk, w: W.World, r: W.RunId, def: W.WorkflowDef, i: nat,
                                       snap: seq<Step>, oracle: seq<W.Outcome>, now: nat, comps: seq<W.Compensation>)
    returns (choices: seq<P.Choice>)
    requires Agree(c, w, r) && FreshFrom(c, snap, i) && i <= |snap| == |oracle| && Distinct(c.names)
    ensures W.Present(w, r) && |w.steps[r]| == |oracle|
    ensures Left(Local(c, d, P.Visit(i, snap), choices), W.Walk(w, r, def, i, oracle, now, comps).world, r)
    ensures SameAsk(c.names, d, Local(c, d, P.Visit(i, snap), choices).desk,
                    w.desk, W.Walk(w, r, def, i, oracle, now, comps).world.desk, r)
    decreases |oracle| - i
  {
    hide Agree, Local, W.Succeed, W.Invoke, W.Settle, W.AfterFailure, P.SetStatus, W.OpenGate, P.Recorded, W.Recorded,
         W.SetCurrent, Asked;
    AgreePresent(c, w, r);
    if i == |oracle| {
      choices := FinishMoves(c, d, i, snap);
      Settled(c, w, r, RunStatus.Succeeded, W.Completed);
      SettleDesk(w, r, RunStatus.Succeeded, W.Completed);
      return;
    }
    AgreeSteps(c, w, r, i);
    AgreeRecorded(c, w, r, i);
    var step := snap[i];
    if !Finished(step.status) && IsGate(step.name) {
      var cfg := W.ConfigOf(def, step.name);
      var desk := W.OpenGate(w.desk, r, step.name, cfg, now);
      choices := GateRound(c, d, w, r, i, snap, cfg, desk);
      SettleDesk(w.(desk := desk), r, AwaitingApproval, W.AtGate);
      assert AskedBoth(c.names, d, Local(c, d, P.Visit(i, snap), choices).desk, w.desk, desk, r, i, cfg, now);
    } else if Finished(step.status) || P.Recorded(c, i) {
      var next := if Finished(step.status) then w else W.SetCurrent(w, r, step.name);
      CurrentSet(c, w, r, step.name);
      CurrentDesk(w, r, step.name);
      var rest := WalkRefines(c, d, next, r, def, i + 1, snap, oracle, now, comps);
      choices := [P.Proceed] + rest;
      LocalStep(c, d, P.Visit(i, snap), P.Proceed, rest);
    } else if !LegalStep(step.status, StepStatus.Running) {
      choices := RefusedMoves(c, d, i, snap);
    } else {
      match oracle[i]
      case Raises(failure, _) => choices := FailureRound(c, d, w, r, i, snap, failure, comps);
      case Returns(out, more) =>
        var first := SuccessRound(c, d, w, r, i, snap, W.OutputOf(out));
        var m := Local(c, d, P.Visit(i, snap), first);
        var next := W.Succeed(W.Invoke(w, r, i), r, i, W.OutputOf(out));
        NamesKept(c, d, P.Visit(i, snap), first);
        var rest := WalkRefines(m.core, m.desk, next, r, def, i + 1, m.phase.snap, oracle, now, comps + more);
        choices := first + rest;
        LocalConcat(c, d, P.Visit(i, snap), first, rest);
    }
  }

  lemma AgreePresent(c: P.Core, w: W.World, r: W.RunId)
    requires Agree(c, w, r)
    ensures W.Present(w, r) && c.steps == w.steps[r] && c.status == w.runs[r].status
  {
  }

  lemma AgreeRecorded(c: P.Core, w: W.World, r: W.RunId, i: nat)
    requires Agree(c, w, r) && i < |c.names|
    ensures P.Recorded(c, i) <==> W.Recorded(w, W.Call(r, c.names[i]))
  {
  }

  lemma FinishMoves(c: P.Core, d: P.Desk, i: nat, snap: seq<Step>) returns (choices: seq<P.Choice>)
    requires i == |snap|
    ensures Local(c, d, P.Visit(i, snap), choices) == P.Made(P.SetStatus(c, RunStatus.Succeeded), d, P.Gone)
  {
    hide Local;
    var l1 := [P.Proceed] + [];
    choices := [P.Proceed] + l1;
    LocalStep(c, d, P.Visit(i, snap), P.Proceed, l1);
    LocalStep(c, d, P.Finish, P.Proceed, []);
    LocalDone(P.SetStatus(c, RunStatus.Succeeded), d, P.Gone);
  }

  lemma RefusedMoves(c: P.Core, d: P.Desk, i: nat, snap: seq<Step>) returns (choices: seq<P.Choice>)
    requires FreshFrom(c, snap, i) && i < |snap|
    requires !Finished(snap[i].status) && !IsGate(snap[i].name) && !P.Recorded(c, i)
    requires !LegalStep(snap[i].status, StepStatus.Running)
    ensures Local(c, d, P.Visit(i, snap), choices) == P.Made(c, d, P.Gone)
  {
    hide Local;
    var l1 := [P.Proceed] + [];
    choices := [P.Proceed] + l1;
    LocalStep(c, d, P.Visit(i, snap), P.Proceed, l1);
    LocalStep(c, d, P.Claim(i, snap), P.Proceed, []);
    LocalDone(c, d, P.Gone);
  }

  lemma {:induction false} NamesKept(c: P.Core, d: P.Desk, p: P.Phase, choices: seq<P.Choice>)
    ensures Local(c, d, p, choices).core.names == c.names
    decreases |choices|
  {
    if choices != [] {
      var m := P.TickWorker(c, d, p, choices[0]);
      NamesKept(m.core, m.desk, m.phase, choices[1..]);
    }
  }

  lemma ExecOne(s: P.State, e: P.Event)
    ensures P.Exec(s, [e]) == P.Next(s, e)
  {
    hide P.Next;
    assert [e][1..] == [];
  }

  /** Getting to the first step: fetch, promote a queued run, load the steps. */
  lemma StartMoves(c: P.Core, d: P.Desk) returns (choices: seq<P.Choice>)
    ensures Local(c, d, P.Fetch, choices)
         == P.Made(if c.status == Queued then c.(status := RunStatus.Running) else c, d, P.Visit(0, c.steps))
  {
    hide Local;
    var l1 := [P.Proceed] + [];
    var l2 := [P.Proceed] + l1;
    var promoted := if c.status == Queued then c.(status := RunStatus.Running) else c;
    if c.status == Queued {
      choices := [P.Proceed] + l2;
      LocalStep(c, d, P.Fetch, P.Proceed, l2);
      LocalStep(c, d, P.Promote, P.Proceed, l1);
    } else {
      choices := l2;
      LocalStep(c, d, P.Fetch, P.Proceed, l1);
    }
    LocalStep(promoted, d, P.Load, P.Proceed, []);
    LocalDone(promoted, d, P.Visit(0, c.steps));
  }

  lemma PromoteAgrees(c: P.Core, w: W.World, r: W.RunId)
    requires Agree(c, w, r)
    ensures Agree(if c.status == Queued then c.(status := RunStatus.Running) else c, W.Promote(w, r), r)
  {
  }

  lemma PromoteDesk(w: W.World, r: W.RunId)
    requires r in w.runs
    ensures W.Promote(w, r).desk == w.desk
  {
  }

  /** Every call of `execute` on a run, from any state the protocol can be in, has the effect of some
      sequence of protocol events by one new worker. */
  lemma ExecuteRefines(s: P.State, v: nat, w: W.World, defs: W.Registry, r: W.RunId, locked: bool,
                       oracle: seq<W.Outcome>, now: nat)
    returns (events: seq<P.Event>)
    requires Agree(s.core, w, r) && Distinct(s.core.names) && v !in s.workers && |oracle| == |s.core.steps|
    ensures W.Present(w, r) && |w.steps[r]| == |oracle|
    ensures Agree(P.Exec(s, events).core, W.Execute(w, defs, r, locked, oracle, now).world, r)
    ensures P.Exec(s, events).workers.Keys <= s.workers.Keys + {v} && P.Exec(s, events).resolvers == s.resolvers
    ensures SameAsk(s.core.names, s.desk, P.Exec(s, events).desk,
                    w.desk, W.Execute(w, defs, r, locked, oracle, now).world.desk, r)
  {
    hide Agree, Local, P.Exec, W.Walk, W.Promote, P.TickWorker;
    AgreePresent(s.core, w, r);
    if locked {
      events := [];
      ExecNone(s);
      return;
    }
    var t := s.(workers := s.workers[v := P.Fetch]);
    ExecOne(s, P.Spawn(v));
    var start := StartMoves(t.core, t.desk);
    PromoteAgrees(s.core, w, r);
    PromoteDesk(w, r);
    var m := Local(t.core, t.desk, P.Fetch, start);
    if w.runs[r].workflow !in defs {
      events := [P.Spawn(v)] + Ticks(v, start);
      ExecConcat(s, [P.Spawn(v)], Ticks(v, start));
      LocalIsExec(t, v, start);
    } else {
      var def := defs[w.runs[r].workflow];
      var walk := WalkRefines(m.core, m.desk, W.Promote(w, r), r, def, 0, t.core.steps, oracle, now, []);
      LocalConcat(t.core, t.desk, P.Fetch, start, walk);
      events := [P.Spawn(v)] + Ticks(v, start + walk);
      ExecConcat(s, [P.Spawn(v)], Ticks(v, start + walk));
      LocalIsExec(t, v, start + walk);
    }
  }

  lemma ExecNone(s: P.State)
    ensures P.Exec(s, []) == s
  {
  }

  lemma FreshWorker(s: P.State) returns (v: nat)
    ensures v !in s.workers
  {
    v := Above(s.workers.Keys);
  }

  /** Whatever `execute` makes of a run the protocol can reach, the protocol can reach; so what holds
      of every interleaving holds after every call. */
  lemma ExecuteStaysReachable(names: seq<StepName>, s: P.State, w: W.World, defs: W.Registry, r: W.RunId,
                              locked: bool, oracle: seq<W.Outcome>, now: nat)
    returns (t: P.State)
    requires T.Reachable(names, s) && Distinct(names) && Agree(s.core, w, r) && |oracle| == |s.core.steps|
    ensures W.Present(w, r) && |w.steps[r]| == |oracle|
    ensures T.Reachable(names, t) && Agree(t.core, W.Execute(w, defs, r, locked, oracle, now).world, r)
    ensures SameAsk(names, s.desk, t.desk, w.desk, W.Execute(w, defs, r, locked, oracle, now).world.desk, r)
  {
    hide Agree, P.Exec, W.Execute, P.Init;
    T.ReachableInv(names, s);
    var before :| s == P.Exec(P.Init(names), before);
    var v := FreshWorker(s);
    var events := ExecuteRefines(s, v, w, defs, r, locked, oracle, now);
    t := P.Exec(s, events);
    ExecConcat(P.Init(names), before, events);
    assert t == P.Exec(P.Init(names), before + events);
  }
}
