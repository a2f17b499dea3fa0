/** The outside effects of a pass: how often handlers are invoked, and which compensations run. */
module WorkflowEffects {
  import opened Wrappers
  import opened States
  import opened Workflow
  import opened WorkflowRuns

  // ----- Handler invocations -----

  /** Each step's attempt counter is the number of times its handler was invoked. */
  ghost predicate CallsAgree(w: World, r: RunId) {
    Present(w, r) && forall i :: 0 <= i < |w.steps[r]| ==>
      multiset(w.calls)[Call(r, w.steps[r][i].name)] == w.steps[r][i].attempt
  }

  /** Calls recorded for other runs are untouched. */
  ghost predicate OthersUncalled(w: World, v: World, r: RunId) {
    forall c: Call :: c.run != r ==> multiset(v.calls)[c] == multiset(w.calls)[c]
  }

  /** One invocation of the handler of step `i`, counted and attempted once. */
  lemma InvokedOnce(w: World, v: World, r: RunId, i: nat)
    requires CallsAgree(w, r) && Distinct(NamesOf(w.steps[r])) && i < |w.steps[r]|
    requires Present(v, r) && |v.steps[r]| == |w.steps[r]| && v.calls == w.calls + [Call(r, w.steps[r][i].name)]
    requires v.steps[r] == w.steps[r][i := v.steps[r][i]]
    requires v.steps[r][i].name == w.steps[r][i].name && v.steps[r][i].attempt == w.steps[r][i].attempt + 1
    ensures CallsAgree(v, r) && OthersUncalled(w, v, r) && NamesOf(v.steps[r]) == NamesOf(w.steps[r])
  {
    var names := NamesOf(w.steps[r]);
    assert NamesOf(v.steps[r]) == names;
    forall j | 0 <= j < |names|
      ensures multiset(v.calls)[Call(r, names[j])] == v.steps[r][j].attempt
    {
      assert names[j] == names[i] ==> i == j;
    }
  }

  /** The round claims the step and invokes its handler. */
  predicate Invokes(w: World, r: RunId, i: nat)
    requires Present(w, r) && i < |w.steps[r]|
  {
    var step := w.steps[r][i];
    && !Finished(step.status) && !IsGate(step.name) && !Recorded(w, Call(r, step.name))
    && LegalStep(step.status, StepStatus.Running)
  }

  /** A round that invokes nothing leaves steps, calls and compensations alone. */
  lemma PaceQuiet(w: World, r: RunId, def: WorkflowDef, i: nat, answer: Outcome, now: nat,
                  comps: seq<Compensation>)
    requires Present(w, r) && i < |w.steps[r]| && !Invokes(w, r, i)
    ensures var p := Pace(w, r, def, i, answer, now, comps);
      var v := WorldOf(p);
      && v.steps == w.steps && v.calls == w.calls && v.undone == w.undone && Present(v, r)
      && (p.Onward? ==> p.comps == comps && v.runs[r].status == w.runs[r].status)
      && (p.Stop? ==> p.ended.end != ParkedRun)
  {
  }

  /** Step `i` was invoked once between `before` and `after`, and nothing else was written. */
  predicate WroteOne(before: seq<Step>, after: seq<Step>, i: nat) {
    && i < |before| == |after| && after == before[i := after[i]]
    && after[i].name == before[i].name && after[i].attempt == before[i].attempt + 1
  }

  lemma SucceedWrites(w: World, r: RunId, i: nat, out: Output)
    requires Present(w, r) && i < |w.steps[r]|
    ensures var v := Succeed(Invoke(w, r, i), r, i, out);
      && Present(v, r) && WroteOne(w.steps[r], v.steps[r], i)
      && v.steps[r][i].status == StepStatus.Succeeded
      && v.calls == w.calls + [Call(r, w.steps[r][i].name)] && v.undone == w.undone
      && v.runs[r].status == w.runs[r].status
  {
  }

  lemma FailureWrites(w: World, r: RunId, i: nat, failure: Failure, comps: seq<Compensation>)
    requires Present(w, r) && i < |w.steps[r]|
    ensures var e := AfterFailure(Invoke(w, r, i), r, i, failure, comps);
      var v := e.world;
      && Present(v, r) && WroteOne(w.steps[r], v.steps[r], i) && v.steps[r][i].status == Failed
      && v.calls == w.calls + [Call(r, w.steps[r][i].name)]
      && (e.end == ParkedRun ==> v.undone == w.undone + Reverse(comps))
      && (e.end != ParkedRun && MayMove(w, r, Parked) ==> v.undone == w.undone)
  {
  }

  lemma PaceCalls(w: World, r: RunId, def: WorkflowDef, i: nat, answer: Outcome, now: nat,
                  comps: seq<Compensation>)
    requires CallsAgree(w, r) && Distinct(NamesOf(w.steps[r])) && i < |w.steps[r]|
    ensures var v := WorldOf(Pace(w, r, def, i, answer, now, comps));
      CallsAgree(v, r) && OthersUncalled(w, v, r) && NamesOf(v.steps[r]) == NamesOf(w.steps[r])
  {
    var v := WorldOf(Pace(w, r, def, i, answer, now, comps));
    if Invokes(w, r, i) {
      match answer
      case Returns(out, _) =>
        SucceedWrites(w, r, i, OutputOf(out));
        InvokedOnce(w, v, r, i);
      case Raises(failure, _) =>
        FailureWrites(w, r, i, failure, comps);
        InvokedOnce(w, v, r, i);
    } else {
      PaceQuiet(w, r, def, i, answer, now, comps);
    }
  }

  /** A pass keeps attempts equal to invocations and invokes no handler of another run. */
  lemma {:induction false} WalkCalls(w: World, r: RunId, def: WorkflowDef, i: nat, oracle: seq<Outcome>,
                                     now: nat, comps: seq<Compensation>)
    requires CallsAgree(w, r) && Distinct(NamesOf(w.steps[r])) && i <= |w.steps[r]| == |oracle|
    ensures var v := Walk(w, r, def, i, oracle, now, comps).world;
      CallsAgree(v, r) && OthersUncalled(w, v, r)
    decreases |oracle| - i
  {
    if i < |oracle| {
      var p := Pace(w, r, def, i, oracle[i], now, comps);
      PaceCalls(w, r, def, i, oracle[i], now, comps);
      if p.Onward? {
        WalkCalls(p.next, r, def, i + 1, oracle, now, p.comps);
      }
    }
  }

  // ----- Compensations -----

  /** What one step registered, if it succeeded between `before` and `after`. */
  function Registered(before: Step, after: Step, answer: Outcome): seq<Compensation> {
    if !Finished(before.status) && after.status == StepStatus.Succeeded then answer.comps else []
  }

  /** What the steps from `i` on that succeeded between `before` and `after` registered, in step order. */
  function Registrations(before: seq<Step>, after: seq<Step>, oracle: seq<Outcome>, i: nat): seq<Compensation>
    requires |before| == |after| == |oracle|
    decreases |before| - i
  {
    if i >= |before| then []
    else Registered(before[i], after[i], oracle[i]) + Registrations(before, after, oracle, i + 1)
  }

  lemma {:induction false} RegistrationsOf(a: seq<Step>, b: seq<Step>, after: seq<Step>, oracle: seq<Outcome>, i: nat)
    requires |a| == |b| == |after| == |oracle| && forall j :: i <= j < |a| ==> a[j] == b[j]
    ensures Registrations(a, after, oracle, i) == Registrations(b, after, oracle, i)
    decreases |a| - i
  {
    if i < |a| {
      RegistrationsOf(a, b, after, oracle, i + 1);
    }
  }

  lemma RegistrationsStep(before: seq<Step>, mid: seq<Step>, after: seq<Step>, oracle: seq<Outcome>, i: nat,
                          comps: seq<Compensation>, more: seq<Compensation>)
    requires |before| == |mid| == |after| == |oracle| && i < |before| && after[i] == mid[i]
    requires forall j :: i < j < |before| ==> before[j] == mid[j]
    requires more == comps + Registered(before[i], mid[i], oracle[i])
    ensures comps + Registrations(before, after, oracle, i) == more + Registrations(mid, after, oracle, i + 1)
  {
    hide Registered;
    RegistrationsOf(before, mid, after, oracle, i + 1);
    assert Registered(before[i], mid[i], oracle[i]) == Registered(before[i], after[i], oracle[i]);
    Associates(comps, Registered(before[i], mid[i], oracle[i]), Registrations(before, after, oracle, i + 1));
  }

  lemma Associates<T>(a: seq<T>, b: seq<T>, c: seq<T>)
    ensures (a + b) + c == a + (b + c)
  {
  }

  lemma {:induction false} NothingRegistered(steps: seq<Step>, after: seq<Step>, oracle: seq<Outcome>, i: nat)
    requires |steps| == |after| == |oracle|
    requires forall j :: i <= j < |steps| ==> after[j].status == steps[j].status || after[j].status == Failed
    ensures Registrations(steps, after, oracle, i) == []
    decreases |steps| - i
  {
    if i < |steps| {
      NothingRegistered(steps, after, oracle, i + 1);
    }
  }

  /** The steps a pass has left behind are not written again. */
  lemma {:induction false} WalkPrefix(w: World, r: RunId, def: WorkflowDef, i: nat, oracle: seq<Outcome>,
                                      now: nat, comps: seq<Compensation>)
    requires Present(w, r) && i <= |w.steps[r]| == |oracle|
    ensures var v := Walk(w, r, def, i, oracle, now, comps).world;
      && Present(v, r) && |v.steps[r]| == |oracle|
      && forall j :: 0 <= j < i ==> v.steps[r][j] == w.steps[r][j]
    decreases |oracle| - i
  {
    if i < |oracle| {
      var p := Pace(w, r, def, i, oracle[i], now, comps);
      PaceWrites(w, r, def, i, oracle[i], now, comps);
      if p.Onward? {
        WalkPrefix(p.next, r, def, i + 1, oracle, now, p.comps);
      }
    }
  }

  /** One round writes at most its own step, and adds to the registrations exactly what that step
      registered if it succeeded in this round. */
  lemma PaceWrites(w: World, r: RunId, def: WorkflowDef, i: nat, answer: Outcome, now: nat,
                   comps: seq<Compensation>)
    requires Present(w, r) && i < |w.steps[r]|
    ensures var p := Pace(w, r, def, i, answer, now, comps);
      var v := WorldOf(p);
      && Present(v, r) && |v.steps[r]| == |w.steps[r]|
      && (forall j :: 0 <= j < |w.steps[r]| && j != i ==> v.steps[r][j] == w.steps[r][j])
      && (p.Stop? ==> v.steps[r][i].status == w.steps[r][i].status || v.steps[r][i].status == Failed)
      && (p.Onward? ==> p.comps == comps + Registered(w.steps[r][i], v.steps[r][i], answer))
      && (p.Onward? ==> v.undone == w.undone && v.runs[r].status == w.runs[r].status)
  {
    assert comps + [] == comps;
    if Invokes(w, r, i) {
      match answer
      case Returns(out, _) => SucceedWrites(w, r, i, OutputOf(out));
      case Raises(failure, _) => FailureWrites(w, r, i, failure, comps);
    } else {
      PaceQuiet(w, r, def, i, answer, now, comps);
    }
  }

  lemma StopCompensates(w: World, r: RunId, def: WorkflowDef, i: nat, answer: Outcome, now: nat,
                        comps: seq<Compensation>)
    requires Present(w, r) && i < |w.steps[r]| && Pace(w, r, def, i, answer, now, comps).Stop?
    ensures var e := Pace(w, r, def, i, answer, now, comps).ended;
      && (e.end == ParkedRun ==> e.world.undone == w.undone + Reverse(comps))
      && (e.end != ParkedRun && MayMove(w, r, Parked) ==> e.world.undone == w.undone)
  {
    if Invokes(w, r, i) {
      match answer
      case Returns(_, _) =>
      case Raises(failure, _) => FailureWrites(w, r, i, failure, comps);
    } else {
      PaceQuiet(w, r, def, i, answer, now, comps);
    }
  }

  /** A pass that parks the run has tried, each once and latest first, exactly the compensations that
      the steps which succeeded in this pass registered; any other pass over a run that may park tries
      none. */
  lemma {:induction false} ParkCompensates(w: World, r: RunId, def: WorkflowDef, i: nat, oracle: seq<Outcome>,
                                           now: nat, comps: seq<Compensation>)
    requires Present(w, r) && i <= |w.steps[r]| == |oracle|
    ensures var e := Walk(w, r, def, i, oracle, now, comps);
      && Present(e.world, r) && |e.world.steps[r]| == |oracle|
      && (e.end == ParkedRun ==>
            e.world.undone == w.undone + Reverse(comps + Registrations(w.steps[r], e.world.steps[r], oracle, i)))
      && (e.end != ParkedRun && MayMove(w, r, Parked) ==> e.world.undone == w.undone)
    decreases |oracle| - i
  {
    if i < |oracle| {
      var p := Pace(w, r, def, i, oracle[i], now, comps);
      PaceWrites(w, r, def, i, oracle[i], now, comps);
      if p.Onward? {
        var e := Walk(p.next, r, def, i + 1, oracle, now, p.comps);
        ParkCompensates(p.next, r, def, i + 1, oracle, now, p.comps);
        WalkPrefix(p.next, r, def, i + 1, oracle, now, p.comps);
        RegistrationsStep(w.steps[r], p.next.steps[r], e.world.steps[r], oracle, i, comps, p.comps);
      } else {
        StopCompensates(w, r, def, i, oracle[i], now, comps);
        NothingRegistered(w.steps[r], p.ended.world.steps[r], oracle, i);
        assert comps + [] == comps;
      }
    }
  }
}
