/** How often a handler can return: exactly once more than the idempotency store raised on its step. */
module ProtocolRepeats {
  import opened Wrappers
  import opened States
  import opened Protocol
  import opened ProtocolSafety
  import opened ProtocolTheorems
  import opened ProtocolRuns
  import opened ProtocolRejection
  import opened ProtocolOverrun
  import opened ProtocolCompletion

  function Returns(s: State, i: nat): nat {
    if i < |s.core.successes| then s.core.successes[i] else 0
  }

  function Raises(s: State, i: nat): nat {
    if i < |s.core.faults| then s.core.faults[i] else 0
  }

  lemma ReturnCounts(c: Core, d: Desk, p: Phase)
    requires Shaped(c) && p.Handling? && p.i < |c.names|
    ensures var m := TickWorker(c, d, p, Returned(SOME_OUTPUT));
      && m.phase == Reserve(p.i, p.snap, SOME_OUTPUT) && p.i < |m.core.successes| && p.i < |m.core.faults|
      && m.core.successes[p.i] == c.successes[p.i] + 1 && m.core.faults[p.i] == c.faults[p.i] && m.core.idem == c.idem
  {
  }

  lemma FaultCounts(c: Core, d: Desk, p: Phase)
    requires Shaped(c) && p.Reserve? && p.i < |c.names|
    ensures var m := TickWorker(c, d, p, IdemRaised);
      && m.phase == Fail(p.i, p.snap, false) && p.i < |m.core.successes| && p.i < |m.core.faults|
      && m.core.successes[p.i] == c.successes[p.i] && m.core.faults[p.i] == c.faults[p.i] + 1 && m.core.idem == c.idem
  {
  }

  lemma FailCounts(c: Core, d: Desk, p: Phase)
    requires Shaped(c) && p.Fail? && PhaseFits(c, d, p)
    ensures var m := TickWorker(c, d, p, Proceed);
      && p.i < |m.core.steps| && m.core.steps[p.i].status == Failed
      && m.core.successes == c.successes && m.core.faults == c.faults && m.core.idem == c.idem
  {
    hide StatusFits;
  }

  /** The run is driven up to task `i`, whose handler has returned as often as the store raised, `k` times. */
  ghost predicate Repeated(names: seq<StepName>, s: State, i: nat, k: nat) {
    && Reachable(names, s) && Driven(s, i) && i < |s.core.names| && s.core.status == RunStatus.Running
    && s.core.names == names && Returns(s, i) == k && Raises(s, i) == k
    && LegalStep(s.core.steps[i].status, StepStatus.Running) && !Recorded(s.core, i)
  }

  lemma ReachableOn(names: seq<StepName>, s: State, t: State)
    requires Reachable(names, s) && Leads(s, t)
    ensures Reachable(names, t)
  {
    hide Exec;
    var events :| s == Exec(Init(names), events);
    assert Leads(Init(names), s);
    LeadsOn(Init(names), s, t);
  }

  /** The handler is entered and returns. */
  lemma ReturnsAgain(names: seq<StepName>, s: State, i: nat, k: nat) returns (t: State, w: nat)
    requires Repeated(names, s, i, k) && !IsGate(names[i])
    ensures Leads(s, t) && Inv(t) && t.core.status == RunStatus.Running && KeptBut(s.core, t.core, i)
    ensures Returns(t, i) == k + 1 && Raises(t, i) == k && !Recorded(t.core, i)
    ensures w in t.workers && t.workers[w].Reserve? && t.workers[w].i == i && Shaped(t.core)
  {
    hide Leads, Inv, AllReady, KeptBut, Touched, Recorded, Reachable, TickWorker, NoneUnreturned;
    TaskName(s, i);
    var a, v := Arrives(s, i);
    w := v;
    var b := ClaimIn(a, w, i, s.core.steps);
    LeadsOn(s, a, b);
    RecordsQuiet(s.core, b.core);
    InvFits(b, w);
    KeptShape(s.core, b.core, i);
    ReturnCounts(b.core, b.desk, b.workers[w]);
    t := OwnerTick(b, w, i, Returned(SOME_OUTPUT));
    LeadsOn(s, b, t);
    TouchedKept(b, t, i);
    KeptOn(s.core, b.core, t.core, i);
    RecordsQuiet(b.core, t.core);
    InvFits(t, w);
  }

  lemma TaskName(s: State, i: nat)
    requires Inv(s) && i < |s.core.names|
    ensures |s.core.steps| == |s.core.names| && s.core.steps[i].name == s.core.names[i]
  {
  }

  lemma KeptShape(c: Core, c': Core, i: nat)
    requires KeptBut(c, c', i)
    ensures Shaped(c') && c'.names == c.names
  {
    hide Recorded;
  }

  /** The store then raises and the step is stored as failed. */
  lemma RaisesAfter(names: seq<StepName>, s: State, w: nat, i: nat) returns (t: State)
    requires Inv(s) && Shaped(s.core) && w in s.workers && s.workers[w].Reserve? && s.workers[w].i == i
    requires i < |s.core.names| && !Recorded(s.core, i)
    ensures Leads(s, t) && Inv(t) && t.core.status == s.core.status && KeptBut(s.core, t.core, i)
    ensures Returns(t, i) == Returns(s, i) && Raises(t, i) == Raises(s, i) + 1 && !Recorded(t.core, i)
    ensures i < |t.core.steps| && t.core.steps[i].status == Failed
  {
    hide Leads, Inv, KeptBut, Touched, Recorded, TickWorker;
    FaultCounts(s.core, s.desk, s.workers[w]);
    var u := OwnerTick(s, w, i, IdemRaised);
    TouchedKept(s, u, i);
    RecordsQuiet(s.core, u.core);
    InvFits(u, w);
    FailCounts(u.core, u.desk, u.workers[w]);
    t := OwnerTick(u, w, i, Proceed);
    LeadsOn(s, u, t);
    TouchedKept(u, t, i);
    KeptOn(s.core, u.core, t.core, i);
    RecordsQuiet(u.core, t.core);
    KeptShape(s.core, t.core, i);
    InvLengths(t);
  }

  lemma InvLengths(s: State)
    requires Inv(s)
    ensures |s.core.successes| == |s.core.faults| == |s.core.names|
  {
  }

  lemma StillDriven(s: State, t: State, i: nat)
    requires Driven(s, i) && i < |s.core.names| && Inv(t) && KeptBut(s.core, t.core, i)
    requires i < |t.core.steps| && t.core.steps[i].status == Failed
    ensures Driven(t, i) && t.core.names == s.core.names
  {
    hide Inv, Recorded;
    assert !Unreturned(t.core, i);
    KeptUnreturned(s.core, t.core, i);
    forall k | 0 <= k < i
      ensures Ready(t, k)
    {
      assert Ready(s, k);
    }
  }

  /** A fresh run is promoted and driven up to task `i`, which is untouched. */
  lemma FirstTime(names: seq<StepName>, i: nat) returns (s: State)
    requires i < |names|
    ensures Repeated(names, s, i, 0)
  {
    hide Leads, Reachable, Inv, SameAt;
    var z := Init(names);
    InitInv(names);
    assert Reachable(names, z) by {
      Begun(names);
    }
    var a := Promoted(z);
    ReachableOn(names, z, a);
    LeadsInv(z, a);
    assert Driven(a, 0);
    s := DoSteps(a, 0, i);
    ReachableOn(names, a, s);
    Untouched(a, s, i);
  }

  lemma Begun(names: seq<StepName>)
    ensures Reachable(names, Init(names))
  {
    assert Init(names) == Exec(Init(names), []);
  }

  lemma Untouched(a: State, s: State, i: nat)
    requires SameAt(a.core, s.core, i) && i < |a.core.steps| && a.core.steps[i].status == Pending
    requires i < |a.core.successes| && a.core.successes[i] == 0 && i < |a.core.faults| && a.core.faults[i] == 0
    requires a.core.idem == map[]
    ensures Returns(s, i) == 0 == Raises(s, i) && !Recorded(s.core, i)
    ensures i < |s.core.steps| && LegalStep(s.core.steps[i].status, StepStatus.Running)
  {
  }

  lemma {:induction false} Again(names: seq<StepName>, i: nat, k: nat) returns (s: State)
    requires i < |names| && !IsGate(names[i])
    ensures Repeated(names, s, i, k)
    decreases k
  {
    hide Leads, Reachable, Inv, KeptBut, Driven, Recorded;
    if k == 0 {
      s := FirstTime(names, i);
    } else {
      var a := Again(names, i, k - 1);
      var b, w := ReturnsAgain(names, a, i, k - 1);
      KeptShape(a.core, b.core, i);
      s := RaisesAfter(names, b, w, i);
      LeadsOn(a, b, s);
      ReachableOn(names, a, s);
      KeptOn(a.core, b.core, s.core, i);
      StillDriven(a, s, i);
    }
  }

  /** For every workflow and task, and every number of exceptions of the idempotency store on it, the bound on
      its successful returns is exact: one more than the exceptions, and no less. */
  lemma ReturnsBoundExact(names: seq<StepName>, i: nat, k: nat, b: nat)
    requires i < |names| && !IsGate(names[i])
    ensures (forall s :: Reachable(names, s) && Raises(s, i) == k ==> Returns(s, i) <= b) <==> k + 1 <= b
  {
    hide Leads, Reachable, Inv, KeptBut, Driven, Recorded, Returns, Raises;
    forall s | Reachable(names, s) && Raises(s, i) == k
      ensures Returns(s, i) <= k + 1
    {
      WithinBound(names, s, i);
    }
    var a := Again(names, i, k);
    var t, w := ReturnsAgain(names, a, i, k);
    ReachableOn(names, a, t);
    assert Raises(t, i) == k && Returns(t, i) == k + 1;
  }

  lemma WithinBound(names: seq<StepName>, s: State, i: nat)
    requires Reachable(names, s) && i < |names|
    ensures Returns(s, i) <= Raises(s, i) + 1
  {
    hide Reachable;
    OneOwnerOneSuccess(names, s, 0, 0, i);
  }
}
