/** What a recovery sweep does: it executes exactly the queued and running runs, once each, in stored order
    (src/cam/core/orchestrator/recovery.py, store.py). */
module WorkflowSweeps {
  import opened Wrappers
  import opened States
  import opened Workflow
  import opened WorkflowRuns
  import opened WorkflowHistory
  import opened WorkflowTheorems
  import opened WorkflowPass

  /** `listed` names exactly the stored runs that are queued or running, each once, in stored order. */
  ghost predicate RecoverableInOrder(w: World, listed: seq<RunId>) {
    && (forall r :: r in listed <==>
          r in w.order && r in w.runs && (w.runs[r].status == Queued || w.runs[r].status == RunStatus.Running))
    && Ordered(listed, w.order)
  }

  ghost predicate Ordered(listed: seq<RunId>, order: seq<RunId>) {
    forall i, j, a, b ::
      (0 <= i < |listed| && 0 <= j < |listed| && 0 <= a < |order| && 0 <= b < |order|
       && listed[i] == order[a] && listed[j] == order[b]) ==> (i < j <==> a < b)
  }

  lemma {:induction false} ListedOrdered(w: World, order: seq<RunId>)
    requires Distinct(order)
    ensures Ordered(Listed(w, order), order)
    decreases |order|
  {
    if order != [] {
      var listed := Listed(w, order);
      var rest := Listed(w, order[1..]);
      ListedIs(w, order);
      ListedIs(w, order[1..]);
      ListedOrdered(w, order[1..]);
      forall i, j, a, b |
        0 <= i < |listed| && 0 <= j < |listed| && 0 <= a < |order| && 0 <= b < |order|
        && listed[i] == order[a] && listed[j] == order[b]
        ensures i < j <==> a < b
      {
        OrderedAt(order, listed, rest, i, j, a, b);
      }
    }
  }

  lemma OrderedAt(order: seq<RunId>, listed: seq<RunId>, rest: seq<RunId>, i: nat, j: nat, a: nat, b: nat)
    requires Distinct(order) && order != [] && Ordered(rest, order[1..]) && Distinct(listed)
    requires listed == rest || listed == [order[0]] + rest
    requires forall r :: r in rest ==> r in order[1..]
    requires i < |listed| && j < |listed| && a < |order| && b < |order|
    requires listed[i] == order[a] && listed[j] == order[b]
    ensures i < j <==> a < b
  {
    var shift := |listed| - |rest|;
    assert a == 0 ==> listed[i] !in order[1..];
    assert b == 0 ==> listed[j] !in order[1..];
    if a > 0 && b > 0 {
      assert order[1..][a - 1] == order[a] && order[1..][b - 1] == order[b];
      if i >= shift && j >= shift {
        assert rest[i - shift] == listed[i] && rest[j - shift] == listed[j];
      }
    }
  }

  lemma ListedRecoverable(w: World)
    requires Distinct(w.order)
    ensures RecoverableInOrder(w, Listed(w, w.order))
  {
    ListedIs(w, w.order);
    ListedOrdered(w, w.order);
  }

  /** Driving one run leaves the other listed runs queued or running as they were. */
  lemma OthersRecoverable(w: World, v: World, defs: Registry, listed: seq<RunId>, i: nat, answers: seq<Outcome>,
                          now: nat)
    requires WorldInv(w, defs) && Distinct(listed) && i < |listed|
    requires Present(w, listed[i]) ==> |answers| == |w.steps[listed[i]]|
    requires v == Execute(w, defs, listed[i], false, answers, now).world
    requires forall j :: i <= j < |listed| ==> Recoverable(w, listed[j])
    ensures forall j :: i < j < |listed| ==> Recoverable(v, listed[j])
  {
    forall j | i < j < |listed|
      ensures Recoverable(v, listed[j])
    {
      OtherStill(w, defs, listed[j], listed[i], false, answers, now);
    }
  }

  ghost predicate AllRecoverable(w: World, listed: seq<RunId>, i: nat) {
    forall j :: i <= j < |listed| ==> Recoverable(w, listed[j])
  }

  /** The stages of a sweep: each listed run is executed in turn, from the stage before it. */
  ghost predicate Stages(w: World, v: World, defs: Registry, listed: seq<RunId>, oracle: Oracle, now: nat,
                         stages: seq<World>, ends: seq<End>)
  {
    && |stages| == |listed| + 1 && |ends| == |listed| && stages[0] == w && stages[|listed|] == v
    && forall i :: 0 <= i < |listed| ==> StageDone(stages[i], stages[i + 1], defs, listed[i], oracle, now, ends[i])
  }

  ghost predicate StageDone(w: World, v: World, defs: Registry, r: RunId, oracle: Oracle, now: nat, end: End) {
    Executed(w, v, defs, r, false, AnswersFor(oracle, w, r), now, end)
  }

  ghost predicate Swept(w: World, v: World, defs: Registry, listed: seq<RunId>, oracle: Oracle, now: nat) {
    exists stages: seq<World>, ends: seq<End> :: Stages(w, v, defs, listed, oracle, now, stages, ends)
  }

  lemma NoStages(w: World, defs: Registry, oracle: Oracle, now: nat)
    ensures Swept(w, w, defs, [], oracle, now)
  {
    assert Stages(w, w, defs, [], oracle, now, [w], []);
  }

  lemma OneMoreStage(w: World, mid: World, v: World, defs: Registry, listed: seq<RunId>, oracle: Oracle, now: nat,
                     end: End)
    requires listed != [] && StageDone(w, mid, defs, listed[0], oracle, now, end)
    requires Swept(mid, v, defs, listed[1..], oracle, now)
    ensures Swept(w, v, defs, listed, oracle, now)
  {
    hide StageDone;
    var stages: seq<World>, ends: seq<End> :| Stages(mid, v, defs, listed[1..], oracle, now, stages, ends);
    assert Stages(w, v, defs, listed, oracle, now, [w] + stages, [end] + ends);
  }

  lemma {:induction false} SweepRunsStages(w: World, defs: Registry, listed: seq<RunId>, oracle: Oracle, now: nat)
    requires WorldInv(w, defs) && Distinct(listed) && AllRecoverable(w, listed, 0)
    ensures Swept(w, SweepRuns(w, defs, listed, oracle, now), defs, listed, oracle, now)
    decreases |listed|
  {
    hide Execute, Executed, Swept, RunInv, NoStrays, Enumerates, DeskInv, GatesPlaced;
    if listed == [] {
      NoStages(w, defs, oracle, now);
    } else {
      var r := listed[0];
      assert RunInv(w, defs, r) && Recoverable(w, r);
      var answers := AnswersFor(oracle, w, r);
      var e := Execute(w, defs, r, false, answers, now);
      ReadyToRun(w, defs, r);
      ExecuteIff(w, e.world, defs, r, false, answers, now, e.end);
      ExecuteInv(w, defs, r, false, answers, now);
      OthersRecoverable(w, e.world, defs, listed, 0, answers, now);
      SweepRunsStages(e.world, defs, listed[1..], oracle, now);
      OneMoreStage(w, e.world, SweepRuns(w, defs, listed, oracle, now), defs, listed, oracle, now, e.end);
    }
  }

  lemma ReadyToRun(w: World, defs: Registry, r: RunId)
    requires RunInv(w, defs, r)
    ensures Present(w, r) && Distinct(NamesOf(w.steps[r]))
  {
  }

  /** A sweep executes exactly the runs that are queued or running when it begins, once each and in stored
      order, every one from the state the executions before it left. */
  lemma SweepIs(w: World, defs: Registry, oracle: Oracle, now: nat)
    requires WorldInv(w, defs)
    ensures var listed := Listed(w, w.order);
      RecoverableInOrder(w, listed) && Swept(w, Sweep(w, defs, oracle, now), defs, listed, oracle, now)
  {
    hide SweepRuns, Swept;
    ListedRecoverable(w);
    ListedIs(w, w.order);
    SweepRunsStages(w, defs, Listed(w, w.order), oracle, now);
  }
}
