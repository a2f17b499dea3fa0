/** Concrete interleavings showing what the protocol does not guarantee. */
module ProtocolWitnesses {
  import opened Wrappers
  import opened States
  import opened Protocol
  import opened ProtocolTheorems
  import ProtocolStranded

  lemma {:induction false} ExecSnoc(s: State, events: seq<Event>, e: Event)
    ensures Exec(s, events + [e]) == Next(Exec(s, events), e)
    decreases |events|
  {
    if events == [] {
      assert events + [e] == [e];
      assert Exec(Next(s, e), []) == Next(s, e);
    } else {
      assert (events + [e])[1..] == events[1..] + [e];
      ExecSnoc(Next(s, events[0]), events[1..], e);
    }
  }

  /** Reachability extends by one event. */
  lemma Go(names: seq<StepName>, s: State, e: Event) returns (t: State)
    requires Reachable(names, s)
    ensures t == Next(s, e) && Reachable(names, t)
  {
    var events :| s == Exec(Init(names), events);
    ExecSnoc(Init(names), events, e);
    t := Next(s, e);
  }

  lemma Start(names: seq<StepName>) returns (s: State)
    ensures s == Init(names) && Reachable(names, s)
  {
    s := Init(names);
    assert s == Exec(Init(names), []);
  }

  /** Worker `w` moves. */
  lemma Tock(names: seq<StepName>, s: State, w: nat, choice: Choice) returns (t: State)
    requires Reachable(names, s) && w in s.workers
    ensures Reachable(names, t) && t == MoveWorker(s, w, choice)
  {
    t := Go(names, s, Tick(w, choice));
  }

  /** A new worker on a run that is not queued takes its copy of the steps. */
  lemma Boot(names: seq<StepName>, s: State, w: nat) returns (t: State)
    requires Reachable(names, s) && w !in s.workers && s.core.status != Queued
    ensures Reachable(names, t)
    ensures t == State(s.core, s.desk, s.workers[w := Visit(0, s.core.steps)], s.resolvers)
  {
    hide Reachable, TickResolver;
    t := Go(names, s, Spawn(w));
    t := Tock(names, t, w, Proceed);
    assert t == State(s.core, s.desk, s.workers[w := Load], s.resolvers);
    t := Tock(names, t, w, Proceed);
  }

  /** The first worker on a fresh run moves it to running and takes its copy of the steps. */
  lemma FirstBoot(names: seq<StepName>) returns (t: State)
    ensures Reachable(names, t)
    ensures t == State(Init(names).core.(status := RunStatus.Running), Init(names).desk,
                       map[0 := Visit(0, FanOut(names))], map[])
  {
    t := Start(names);
    t := Go(names, t, Spawn(0));
    assert t.workers == map[0 := Fetch];
    t := Tock(names, t, 0, Proceed);
    assert t.workers == map[0 := Promote];
    t := Tock(names, t, 0, Proceed);
    assert t.workers == map[0 := Load];
    t := Tock(names, t, 0, Proceed);
  }

  /** A worker at an unclaimed handler step with no recorded output enters the handler. */
  lemma EnterHandler(names: seq<StepName>, s: State, w: nat, i: nat, snap: seq<Step>) returns (t: State)
    requires Reachable(names, s) && w in s.workers && s.workers[w] == Visit(i, snap)
    requires i < |snap| && !Finished(snap[i].status) && !IsGate(snap[i].name) && !Recorded(s.core, i)
    requires MayWrite(s.core, i, StepStatus.Running)
    ensures Reachable(names, t)
    ensures var mine := snap[i].(status := StepStatus.Running);
      t == State(WriteStep(s.core, i, mine), s.desk,
                 s.workers[w := Handling(i, snap[i := mine])], s.resolvers)
  {
    t := Tock(names, s, w, Proceed);
    assert t == State(s.core, s.desk, s.workers[w := Claim(i, snap)], s.resolvers);
    t := Tock(names, t, w, Proceed);
  }

  /** A worker inside a handler sees it return, and then the idempotency store raises. */
  lemma ReturnThenFault(names: seq<StepName>, s: State, w: nat, i: nat, snap: seq<Step>) returns (t: State)
    requires Reachable(names, s) && w in s.workers && s.workers[w] == Handling(i, snap)
    ensures Reachable(names, t)
    ensures t == State(Complete(s.core, i).(successes := Bump(s.core.successes, i),
                                            faults := Bump(s.core.faults, i)),
                       s.desk, s.workers[w := Fail(i, snap, false)], s.resolvers)
  {
    t := Tock(names, s, w, Returned(map[]));
    assert t == State(Complete(s.core, i).(successes := Bump(s.core.successes, i)), s.desk,
                      s.workers[w := Reserve(i, snap, map[])], s.resolvers);
    t := Tock(names, t, w, IdemRaised);
  }

  /** A fatal failure is stored and the run parks. */
  lemma FailThenPark(names: seq<StepName>, s: State, w: nat, i: nat, snap: seq<Step>) returns (t: State)
    requires Reachable(names, s) && w in s.workers && s.workers[w] == Fail(i, snap, false)
    requires i < |snap| && MayWrite(s.core, i, Failed) && s.core.status == RunStatus.Running
    ensures Reachable(names, t)
    ensures t == State(
      WriteStep(s.core, i, snap[i].(status := Failed, attempt := snap[i].attempt + 1)).(status := Parked),
      s.desk, s.workers[w := Gone], s.resolvers)
  {
    var mine := snap[i].(status := Failed, attempt := snap[i].attempt + 1);
    t := Tock(names, s, w, Proceed);
    assert t == State(WriteStep(s.core, i, mine), s.desk, s.workers[w := Park], s.resolvers);
    t := Tock(names, t, w, Proceed);
  }

  lemma FirstSuccessFaulted(name: string) returns (s: State)
    ensures Reachable([Task(name)], s)
    ensures s.core == Core([Task(name)], Parked, [Step(Task(name), Failed, 1, None)], map[], [0], [1], [1])
    ensures s.workers == map[0 := Gone]
  {
    hide Reachable;
    var names := [Task(name)];
    var running := Step(Task(name), StepStatus.Running, 0, None);
    s := FirstBoot(names);
    s := EnterHandler(names, s, 0, 0, FanOut(names));
    assert s.core.steps == [running] && FanOut(names)[0 := running] == [running];
    s := ReturnThenFault(names, s, 0, 0, [running]);
    assert s.core == Core(names, RunStatus.Running, [running], map[], [0], [1], [1]);
    s := FailThenPark(names, s, 0, 0, [running]);
  }

  /** When the idempotency store raises right after a handler returned, the step is stored as failed
      and a re-driven run invokes the handler to success a second time. */
  lemma IdemErrorRepeatsSuccess(name: string)
    ensures exists s: State :: Reachable([Task(name)], s) && s.core.successes == [2] && s.core.faults == [1]
  {
    hide Reachable;
    var names := [Task(name)];
    var s := FirstSuccessFaulted(name);
    s := Go(names, s, Operator(RunStatus.Running));
    s := Boot(names, s, 1);
    s := EnterHandler(names, s, 1, 0, s.core.steps);
    s := Tock(names, s, 1, Returned(map[]));
    assert s.core.successes == [2];
  }

  // ----- Approvals -----

  function AskedDesk(d: Desk, i: nat, role: Standing): Desk {
    Desk(d.gates[d.nextId := Gate(i, role, GatePending)],
         d.tokens[d.nextId + 1 := Token(d.nextId, i, false)], d.decisions, d.nextId + 2)
  }

  /** A worker at a pending gate opens it and issues a token for one channel. */
  lemma Issue(names: seq<StepName>, s: State, w: nat, i: nat, role: Standing) returns (t: State)
    requires Reachable(names, s) && w in s.workers && s.workers[w] == OpenGate(i)
    ensures Reachable(names, t)
    ensures t == State(s.core, AskedDesk(s.desk, i, role),
                       s.workers[w := IssueTokens(s.desk.nextId, 0)], s.resolvers)
  {
    hide Reachable, TickResolver;
    var g := s.desk.nextId;
    t := Tock(names, s, w, Channels(1, role));
    assert t == State(s.core, AddGate(s.desk, i, role), s.workers[w := IssueTokens(g, 1)], s.resolvers);
    t := Tock(names, t, w, Proceed);
  }

  /** With every token issued, the worker moves the running run to awaiting approval and leaves. */
  lemma Settle(names: seq<StepName>, s: State, w: nat, g: nat) returns (t: State)
    requires Reachable(names, s) && w in s.workers && s.workers[w] == IssueTokens(g, 0)
    requires s.core.status == RunStatus.Running
    ensures Reachable(names, t)
    ensures t == State(s.core.(status := AwaitingApproval), s.desk, s.workers[w := Gone], s.resolvers)
  {
    t := Tock(names, s, w, Proceed);
    assert t == State(s.core, s.desk, s.workers[w := Await], s.resolvers);
    t := Tock(names, t, w, Proceed);
  }

  /** A worker at a pending gate of a running run asks for approval over one channel. */
  lemma Ask(names: seq<StepName>, s: State, w: nat, i: nat, snap: seq<Step>, role: Standing) returns (t: State)
    requires Reachable(names, s) && w in s.workers && s.workers[w] == Visit(i, snap)
    requires i < |snap| && !Finished(snap[i].status) && IsGate(snap[i].name)
    requires s.core.status == RunStatus.Running
    ensures Reachable(names, t)
    ensures t == State(s.core.(status := AwaitingApproval), AskedDesk(s.desk, i, role),
                       s.workers[w := Gone], s.resolvers)
  {
    t := Tock(names, s, w, Proceed);
    assert t == State(s.core, s.desk, s.workers[w := OpenGate(i)], s.resolvers);
    t := Issue(names, t, w, i, role);
    t := Settle(names, t, w, s.desk.nextId);
  }

  /** A genuine token is presented and spent, and its pending gate admits the actor. */
  lemma Inspect(names: seq<StepName>, s: State, r: nat, t: nat, approve: bool, actor: Standing)
    returns (u: State)
    requires Reachable(names, s) && r !in s.resolvers && t in s.desk.tokens && !s.desk.tokens[t].used
    requires s.desk.tokens[t].gate in s.desk.gates
    requires s.desk.gates[s.desk.tokens[t].gate].status == GatePending
    requires MayDecide(actor, s.desk.gates[s.desk.tokens[t].gate].role)
    ensures Reachable(names, u)
    ensures u == State(s.core, s.desk.(tokens := s.desk.tokens[t := s.desk.tokens[t].(used := true)]),
                       s.workers,
                       s.resolvers[r := Decide(t, approve, actor, s.desk.gates[s.desk.tokens[t].gate])])
  {
    hide Reachable, TickWorker;
    u := Go(names, s, Present(r, t, approve, actor));
    u := Go(names, u, Resolve(r));
    assert u.resolvers == s.resolvers[r := ReadGate(t, approve, actor)];
    u := Go(names, u, Resolve(r));
  }

  function DecidedDesk(d: Desk, t: nat, approve: bool, actor: Standing, seen: Gate): Desk
    requires t in d.tokens
  {
    var k := d.tokens[t];
    d.(decisions := d.decisions + [Decision(k.gate, k.step, approve, actor, t)],
       gates := d.gates[k.gate := seen.(status := if approve then Approved else RejectedGate)])
  }

  /** A resolver saves its decision and flips the gate. */
  lemma Rule(names: seq<StepName>, s: State, r: nat, t: nat, approve: bool, actor: Standing, seen: Gate)
    returns (u: State)
    requires Reachable(names, s) && r in s.resolvers && t in s.desk.tokens
    requires s.resolvers[r] == Decide(t, approve, actor, seen)
    ensures Reachable(names, u)
    ensures u == State(s.core, DecidedDesk(s.desk, t, approve, actor, seen), s.workers,
                       s.resolvers[r := Move(t, approve)])
  {
    u := Go(names, s, Resolve(r));
    assert u.resolvers == s.resolvers[r := Flip(t, approve, seen)];
    u := Go(names, u, Resolve(r));
    assert u.resolvers == s.resolvers[r := Move(t, approve)];
  }

  /** One approver over two channels at the same moment: two decisions are stored for one gate. */
  lemma OneGateTwoDecisions(gate: string)
    ensures exists s: State ::
      Reachable([Approval(gate)], s) && |s.desk.decisions| == 2 && s.desk.decisions[0].gate == s.desk.decisions[1].gate
      && s.desk.decisions[0].approve && !s.desk.decisions[1].approve
  {
    var names := [Approval(gate)];
    var s := FirstBoot(names);
    s := AskTwice(names, s);
    var seen := Gate(0, Some(Attorney), GatePending);
    s := Inspect(names, s, 0, 1, true, Some(Attorney));
    s := Inspect(names, s, 1, 2, false, Some(Attorney));
    s := Rule(names, s, 0, 1, true, Some(Attorney), seen);
    s := Rule(names, s, 1, 2, false, Some(Attorney), seen);
  }

  lemma AskTwice(names: seq<StepName>, s: State) returns (t: State)
    requires Reachable(names, s) && |names| == 1 && IsGate(names[0])
    requires s == State(Init(names).core.(status := RunStatus.Running), Init(names).desk,
                        map[0 := Visit(0, FanOut(names))], map[])
    ensures Reachable(names, t) && t.resolvers == map[]
    ensures t.desk == Desk(map[0 := Gate(0, Some(Attorney), GatePending)],
                           map[1 := Token(0, 0, false), 2 := Token(0, 0, false)], [], 3)
  {
    hide Reachable;
    t := Tock(names, s, 0, Proceed);
    assert t.workers == map[0 := OpenGate(0)];
    t := Tock(names, t, 0, Channels(2, Some(Attorney)));
    assert t.workers == map[0 := IssueTokens(0, 2)];
    t := Tock(names, t, 0, Proceed);
    assert t.workers == map[0 := IssueTokens(0, 1)];
    t := Tock(names, t, 0, Proceed);
  }

  /** A run waits at its first gate; the approver's call has moved it back to running but has not yet
      advanced the gate step. */
  lemma HalfApproved(names: seq<StepName>) returns (s: State)
    requires |names| == 2 && IsGate(names[0])
    ensures Reachable(names, s)
    ensures s.core == Init(names).core.(status := RunStatus.Running)
    ensures s.workers == map[0 := Gone] && s.resolvers == map[0 := Advance(1)]
    ensures s.desk.nextId == 2 && 1 in s.desk.tokens && s.desk.tokens[1].step == 0
  {
    hide Reachable;
    s := FirstBoot(names);
    s := Ask(names, s, 0, 0, FanOut(names), Some(Attorney));
    s := Inspect(names, s, 0, 1, true, Some(Attorney));
    s := Rule(names, s, 0, 1, true, Some(Attorney), Gate(0, Some(Attorney), GatePending));
    assert s.resolvers == map[0 := Move(1, true)];
    s := Go(names, s, Resolve(0));
    assert s.resolvers == map[0 := Advance(1)];
  }

  /** Meanwhile the run is driven again and asks a second time. */
  lemma AskedAgain(names: seq<StepName>) returns (s: State)
    requires |names| == 2 && IsGate(names[0])
    ensures Reachable(names, s)
    ensures s.core == Init(names).core.(status := AwaitingApproval)
    ensures s.workers == map[0 := Gone, 1 := Gone] && s.resolvers == map[0 := Advance(1)]
    ensures 1 in s.desk.tokens && s.desk.tokens[1].step == 0
    ensures 2 in s.desk.gates && s.desk.gates[2] == Gate(0, Some(Attorney), GatePending)
    ensures 3 in s.desk.tokens && s.desk.tokens[3] == Token(2, 0, false)
  {
    s := HalfApproved(names);
    s := Boot(names, s, 1);
    s := Ask(names, s, 1, 0, FanOut(names), Some(Attorney));
    assert s.workers == map[0 := Gone, 1 := Gone];
  }

  /** The second request is rejected. */
  lemma RejectedMeanwhile(names: seq<StepName>) returns (s: State)
    requires |names| == 2 && IsGate(names[0])
    ensures Reachable(names, s)
    ensures s.core == Init(names).core.(status := Rejected)
    ensures s.workers == map[0 := Gone, 1 := Gone]
    ensures 0 in s.resolvers && s.resolvers[0] == Advance(1)
    ensures 1 in s.desk.tokens && s.desk.tokens[1].step == 0
  {
    s := AskedAgain(names);
    s := Inspect(names, s, 1, 3, false, Some(Attorney));
    s := Rule(names, s, 1, 3, false, Some(Attorney), Gate(0, Some(Attorney), GatePending));
    s := Go(names, s, Resolve(1));
  }

  /** Rejection is not final under concurrency: the first approver's call still advances the gate step
      of the rejected run, and the handler behind the gate is then entered. */
  lemma RejectionOverrun(gate: string, name: string)
    ensures exists s: State ::
      Reachable([Approval(gate), Task(name)], s) && s.core.status == Rejected
      && 2 in s.workers && s.workers[2].Handling? && s.workers[2].i == 1
  {
    hide Reachable;
    var names := [Approval(gate), Task(name)];
    var s := RejectedMeanwhile(names);
    s := Go(names, s, Resolve(0));
    assert s.core.steps[0].status == StepStatus.Succeeded && s.core.steps[1] == Step(Task(name), Pending, 0, None);
    s := Boot(names, s, 2);
    var snap := s.core.steps;
    s := Tock(names, s, 2, Proceed);
    assert s.workers[2] == Visit(1, snap);
    s := EnterHandler(names, s, 2, 1, snap);
  }

  // ----- A stale snapshot -----

  /** The gate step succeeded, everything else as declared. */
  function PastGate(names: seq<StepName>, status: RunStatus): Core
    requires |names| == 2
  {
    Core(names, status, [Step(names[0], StepStatus.Succeeded, 0, None), Step(names[1], Pending, 0, None)], map[], [0],
         Zeros(2), Zeros(2))
  }

  /** Two workers have taken their snapshots; the first asks and leaves. */
  lemma AskedBesideSnapshot(names: seq<StepName>) returns (s: State)
    requires |names| == 2 && IsGate(names[0])
    ensures Reachable(names, s)
    ensures s == State(Init(names).core.(status := AwaitingApproval), AskedDesk(Init(names).desk, 0, Some(Attorney)),
                       map[0 := Gone, 1 := Visit(0, FanOut(names))], map[])
  {
    hide Reachable;
    s := FirstBoot(names);
    s := Boot(names, s, 1);
    s := Ask(names, s, 0, 0, FanOut(names), Some(Attorney));
    assert s.workers == map[0 := Gone, 1 := Visit(0, FanOut(names))];
  }

  /** The approval runs to its end while the second worker stands still. */
  lemma ApprovedBesideSnapshot(names: seq<StepName>) returns (s: State)
    requires |names| == 2 && IsGate(names[0])
    ensures Reachable(names, s)
    ensures s.core == PastGate(names, RunStatus.Running)
    ensures s.workers == map[0 := Gone, 1 := Visit(0, FanOut(names))] && s.resolvers == map[0 := Closed]
    ensures s.desk.nextId == 2
  {
    hide Reachable, TickWorker;
    s := AskedBesideSnapshot(names);
    s := Inspect(names, s, 0, 1, true, Some(Attorney));
    s := Rule(names, s, 0, 1, true, Some(Attorney), Gate(0, Some(Attorney), GatePending));
    assert s.resolvers == map[0 := Move(1, true)];
    s := Go(names, s, Resolve(0));
    assert s.resolvers == map[0 := Advance(1)] && s.core == Init(names).core.(status := RunStatus.Running);
    s := Go(names, s, Resolve(0));
    assert s.core.steps == PastGate(names, RunStatus.Running).steps;
    assert s.resolvers == map[0 := Closed];
  }

  /** The second worker, by its stale snapshot, asks again for the gate that is already behind the run, and
      this request is rejected, also to its end. */
  lemma RejectedByStaleSnapshot(names: seq<StepName>) returns (s: State)
    requires |names| == 2 && IsGate(names[0])
    ensures Reachable(names, s)
    ensures s.core == PastGate(names, Rejected)
    ensures s.workers == map[0 := Gone, 1 := Gone] && s.resolvers == map[0 := Closed, 1 := Closed]
  {
    hide Reachable, TickWorker;
    s := ApprovedBesideSnapshot(names);
    s := Ask(names, s, 1, 0, FanOut(names), Some(Attorney));
    s := Inspect(names, s, 1, 3, false, Some(Attorney));
    s := Rule(names, s, 1, 3, false, Some(Attorney), Gate(0, Some(Attorney), GatePending));
    assert s.resolvers == map[0 := Closed, 1 := Move(3, false)];
    s := Go(names, s, Resolve(1));
    assert s.workers == map[0 := Gone, 1 := Gone] && s.resolvers == map[0 := Closed, 1 := Closed];
  }

  /** Rejection is not final either when no two resolve calls overlap: a worker with a stale snapshot asks
      again after the approval, the second request is rejected, and the handler behind the approved gate
      is entered. */
  lemma StaleSnapshotOverrun(gate: string, name: string)
    ensures exists s: State ::
      Reachable([Approval(gate), Task(name)], s) && s.core.status == Rejected
      && s.resolvers == map[0 := Closed, 1 := Closed]
      && 2 in s.workers && s.workers[2].Handling? && s.workers[2].i == 1
  {
    hide Reachable;
    var names := [Approval(gate), Task(name)];
    var s := RejectedByStaleSnapshot(names);
    s := Boot(names, s, 2);
    var snap := s.core.steps;
    s := Tock(names, s, 2, Proceed);
    assert s.workers[2] == Visit(1, snap);
    s := EnterHandler(names, s, 2, 1, snap);
  }

  // ----- A crashed worker -----

  /** A worker that crashes inside its handler leaves a running run that can never succeed. */
  lemma CrashStrandsRun(name: string)
    ensures exists s: State ::
      Reachable([Task(name)], s) && s.core.status == RunStatus.Running && ProtocolStranded.Blocked(s, 0)
  {
    hide Reachable;
    var names := [Task(name)];
    var s := FirstBoot(names);
    s := EnterHandler(names, s, 0, 0, FanOut(names));
    s := Go(names, s, Crash(0));
    assert s.workers == map[0 := Gone];
    assert ProtocolStranded.Blocked(s, 0);
  }

  const SAVED: Output := map["done" := "yes"]

  /** A worker crashed between recording its output and committing the step. */
  lemma CrashedAfterRecord(name: string) returns (s: State)
    ensures Reachable([Task(name)], s) && s.workers == map[0 := Gone]
    ensures s.core == Core([Task(name)], RunStatus.Running, [Step(Task(name), StepStatus.Running, 0, None)],
                           map[0 := SAVED], [0], [1], [0])
  {
    hide Reachable, TickResolver;
    var names := [Task(name)];
    var running := Step(Task(name), StepStatus.Running, 0, None);
    s := FirstBoot(names);
    s := EnterHandler(names, s, 0, 0, FanOut(names));
    assert s.core.steps == [running];
    s := Tock(names, s, 0, Returned(SAVED));
    assert s.core == Core(names, RunStatus.Running, [running], map[], [0], [1], [0]);
    s := Tock(names, s, 0, Proceed);
    s := Tock(names, s, 0, Proceed);
    s := Go(names, s, Crash(0));
    assert s.workers == map[0 := Gone];
  }

  /** One that crashes after its output was recorded leaves a step that the next worker passes: the run
      succeeds with the step still stored as running. */
  lemma RecordedStrandSucceeds(name: string)
    ensures exists s: State ::
      Reachable([Task(name)], s) && s.core.status == RunStatus.Succeeded
      && s.core.steps == [Step(Task(name), StepStatus.Running, 0, None)]
  {
    hide Reachable, TickResolver, WriteStep, Complete, Bump, MayWrite;
    var names := [Task(name)];
    var s := CrashedAfterRecord(name);
    var steps := s.core.steps;
    assert "done" in SAVED;
    s := Boot(names, s, 1);
    s := Tock(names, s, 1, Proceed);
    assert s.workers[1] == Visit(1, steps);
    s := Tock(names, s, 1, Proceed);
    assert s.workers[1] == Finish;
    s := Tock(names, s, 1, Proceed);
  }
}
