/** When a rejected run can still enter a handler: exactly if what is stored, the workers under way and the
    resolvers about to advance a gate leave a way to one. */
module ProtocolRejection {
  import opened Wrappers
  import opened States
  import opened Protocol
  import opened ProtocolSafety
  import opened ProtocolTheorems
  import opened ProtocolRuns

  // ----- The way to a handler -----

  /** The worker's next store call takes it into a handler. */
  predicate Enters(s: State, w: nat) {
    w in s.workers && !s.workers[w].Handling? && Next(s, Tick(w, Proceed)).workers[w].Handling?
  }

  /** Some continuation takes a worker into a handler. */
  ghost predicate CanEnter(s: State) {
    exists t, w :: Leads(s, t) && Enters(t, w)
  }

  /** A worker inside the step can still commit it. */
  ghost predicate CanFinish(workers: map<nat, Phase>, j: nat) {
    exists w <- workers :: Owns(workers[w], j) && !workers[w].Fail?
  }

  /** A worker inside the step can still fail it. */
  ghost predicate CanFail(workers: map<nat, Phase>, j: nat) {
    exists w <- workers :: Owns(workers[w], j) && !workers[w].Commit?
  }

  /** The worker can still record an output of the step that is not empty. */
  predicate Records(p: Phase, j: nat) {
    || (p.Handling? && p.i == j)
    || (p.Reserve? && p.i == j && p.out != PLACEHOLDER)
    || (p.Record? && p.i == j && p.out != PLACEHOLDER)
  }

  ghost predicate CanRecord(workers: map<nat, Phase>, j: nat) {
    exists w <- workers :: Records(workers[w], j)
  }

  predicate Advancing(d: Desk, q: Resolution, j: nat) {
    q.Advance? && q.token in d.tokens && d.tokens[q.token].step == j
  }

  /** A resolver is about to advance the gate step. */
  ghost predicate CanAdvance(d: Desk, resolvers: map<nat, Resolution>, j: nat) {
    exists r <- resolvers :: Advancing(d, resolvers[r], j)
  }

  /** A worker yet to take its snapshot can get past step `j`: it has succeeded, or is a gate about to be
      advanced, or a handler step with an output on record or with a worker in it that can commit. */
  ghost predicate Passable(s: State, j: nat)
    requires Shaped(s.core) && j < |s.core.names|
  {
    || s.core.steps[j].status == StepStatus.Succeeded
    || if IsGate(s.core.names[j]) then CanAdvance(s.desk, s.resolvers, j)
       else Recorded(s.core, j) || CanFinish(s.workers, j)
  }

  /** A worker with snapshot `snap` can get past step `j`. */
  ghost predicate PassableWith(s: State, snap: seq<Step>, j: nat)
    requires Shaped(s.core) && j < |s.core.names| && |snap| == |s.core.names|
  {
    || Finished(snap[j].status)
    || (!IsGate(s.core.names[j]) && (Recorded(s.core, j) || CanRecord(s.workers, j)))
  }

  /** Handler step `j` can be claimed: it is pending or failed, or a worker inside it can still fail. A
      step left running by a crashed worker cannot. */
  ghost predicate Claimable(s: State, j: nat)
    requires Shaped(s.core) && j < |s.core.names|
  {
    !IsGate(s.core.names[j])
    && (LegalStep(s.core.steps[j].status, StepStatus.Running) || CanFail(s.workers, j))
  }

  ghost predicate ClearTo(s: State, j: nat)
    requires Shaped(s.core) && j <= |s.core.names|
  {
    forall i :: 0 <= i < j ==> Passable(s, i)
  }

  /** A new worker finds every step up to a claimable one passable. */
  ghost predicate NewWay(s: State)
    requires Shaped(s.core)
  {
    exists j :: 0 <= j < |s.core.names| && Claimable(s, j) && ClearTo(s, j)
  }

  /** Where a worker under way goes on, if it gets there: the step it visits, or the one after the step it
      is inside. */
  function Position(p: Phase): Option<nat> {
    match p
    case Visit(i, _) => Some(i)
    case Handling(i, _) => Some(i + 1)
    case Reserve(i, _, _) => Some(i + 1)
    case Record(i, _, _) => Some(i + 1)
    case Commit(i, _, _) => Some(i + 1)
    case _ => None
  }

  function SnapOf(p: Phase): seq<Step> {
    match p
    case Visit(_, snap) => snap
    case Handling(_, snap) => snap
    case Reserve(_, snap, _) => snap
    case Record(_, snap, _) => snap
    case Commit(_, snap, _) => snap
    case _ => []
  }

  ghost predicate ClearFrom(s: State, snap: seq<Step>, i: nat, j: nat)
    requires Shaped(s.core) && j <= |s.core.names| && |snap| == |s.core.names|
  {
    forall k :: i <= k < j ==> PassableWith(s, snap, k)
  }

  ghost predicate WayFrom(s: State, snap: seq<Step>, i: nat)
    requires Shaped(s.core) && |snap| == |s.core.names|
  {
    exists j :: i <= j < |s.core.names| && Claimable(s, j) && !Finished(snap[j].status) && ClearFrom(s, snap, i, j)
  }

  /** A worker under way, by its own snapshot, has a claimable step ahead or stands before one. */
  ghost predicate OldWay(s: State, p: Phase)
    requires Shaped(s.core)
  {
    || (p.Claim? && p.i < |s.core.names| && Claimable(s, p.i))
    || (Position(p).Some? && |SnapOf(p)| == |s.core.names| && WayFrom(s, SnapOf(p), Position(p).value))
  }

  ghost predicate WayIn(s: State)
    requires Shaped(s.core)
  {
    NewWay(s) || exists w <- s.workers :: OldWay(s, s.workers[w])
  }

  // ----- No event opens a way -----

  /** Nothing that helps on the way is there after the event that was not there before. */
  ghost predicate NoBetter(s: State, t: State) {
    && Shaped(s.core) && Shaped(t.core) && t.core.names == s.core.names
    && (forall j :: 0 <= j < |s.core.names| && Passable(t, j) ==> Passable(s, j))
    && (forall j :: 0 <= j < |s.core.names| && Claimable(t, j) ==> Claimable(s, j))
    && (forall j :: 0 <= j < |s.core.names| && (Recorded(t.core, j) || CanRecord(t.workers, j)) ==>
          Recorded(s.core, j) || CanRecord(s.workers, j))
  }

  lemma NewWayBack(s: State, t: State)
    requires NoBetter(s, t) && NewWay(t)
    ensures NewWay(s)
  {
    hide Passable, Claimable;
    var j :| 0 <= j < |t.core.names| && Claimable(t, j) && ClearTo(t, j);
    assert Claimable(s, j) && ClearTo(s, j);
  }

  lemma WayFromBack(s: State, t: State, snap: seq<Step>, i: nat)
    requires NoBetter(s, t) && |snap| == |s.core.names| && WayFrom(t, snap, i)
    ensures WayFrom(s, snap, i)
  {
    hide Passable, Claimable, CanRecord, Recorded;
    var j :| i <= j < |t.core.names| && Claimable(t, j) && !Finished(snap[j].status) && ClearFrom(t, snap, i, j);
    forall k | i <= k < j
      ensures PassableWith(s, snap, k)
    {
      assert PassableWith(t, snap, k);
    }
    assert Claimable(s, j) && ClearFrom(s, snap, i, j);
  }

  lemma OldWayBack(s: State, t: State, p: Phase)
    requires NoBetter(s, t) && OldWay(t, p)
    ensures OldWay(s, p)
  {
    hide Passable, Claimable, WayFrom;
    if Position(p).Some? && |SnapOf(p)| == |s.core.names| && WayFrom(t, SnapOf(p), Position(p).value) {
      WayFromBack(s, t, SnapOf(p), Position(p).value);
    }
  }

  /** An event that leaves every worker as it was or without a way of its own. */
  lemma WayBack(s: State, t: State)
    requires NoBetter(s, t) && WayIn(t)
    requires forall w <- t.workers ::
      OldWay(t, t.workers[w]) ==> WayIn(s) || (w in s.workers && t.workers[w] == s.workers[w])
    ensures WayIn(s)
  {
    hide Passable, Claimable, Recorded, CanRecord, OldWay, NewWay;
    if NewWay(t) {
      NewWayBack(s, t);
    } else {
      var w :| w in t.workers && OldWay(t, t.workers[w]);
      if w in s.workers && t.workers[w] == s.workers[w] {
        OldWayBack(s, t, t.workers[w]);
      }
    }
  }

  /** The claim that takes a worker into a handler. */
  predicate Claims(c: Core, p: Phase) {
    p.Claim? && MayWrite(c, p.i, StepStatus.Running)
  }

  /** What a worker's move, short of entering a handler, can do for step `j`. */
  ghost predicate MoveGains(c: Core, p: Phase, m: Move, j: nat)
    requires Shaped(c) && j < |c.names| && Shaped(m.core) && m.core.names == c.names
  {
    && (Owns(m.phase, j) ==> Owns(p, j) && !p.Commit? && (p.Fail? ==> m.phase.Fail?))
    && (Records(m.phase, j) ==> Records(p, j))
    && (m.core.steps[j].status == StepStatus.Succeeded ==>
          c.steps[j].status == StepStatus.Succeeded || (Owns(p, j) && !p.Fail?))
    && (LegalStep(m.core.steps[j].status, StepStatus.Running) ==>
          LegalStep(c.steps[j].status, StepStatus.Running) || (Owns(p, j) && !p.Commit?))
    && (Recorded(m.core, j) ==> Recorded(c, j) || Records(p, j))
  }

  lemma CompleteQuiet(c: Core, i: nat)
    ensures Complete(c, i) == c.(log := Complete(c, i).log)
  {
  }

  lemma EarlyGains(c: Core, d: Desk, p: Phase, choice: Choice, j: nat)
    requires CoreOk(c) && PhaseFits(c, d, p) && !Claims(c, p) && j < |c.names|
    requires p.Claim? || p.Handling? || p.Reserve? || p.Record?
    ensures var m := TickWorker(c, d, p, choice);
      Shaped(m.core) && m.core.names == c.names && m.core.status == c.status && MoveGains(c, p, m, j)
  {
    hide CountsFit, IdemFits, StepsFit, Ordered, SnapFits, LegalStep, Finished;
  }

  lemma LateGains(c: Core, d: Desk, p: Phase, choice: Choice, j: nat)
    requires CoreOk(c) && PhaseFits(c, d, p) && j < |c.names| && (p.Commit? || p.Fail?)
    ensures var m := TickWorker(c, d, p, choice);
      Shaped(m.core) && m.core.names == c.names && m.core.status == c.status && MoveGains(c, p, m, j)
  {
    hide CountsFit, IdemFits, StepsFit, Ordered, StatusFits;
  }

  lemma InsideGains(c: Core, d: Desk, p: Phase, choice: Choice, j: nat)
    requires CoreOk(c) && PhaseFits(c, d, p) && Inside(p) && !Claims(c, p) && j < |c.names|
    ensures var m := TickWorker(c, d, p, choice);
      Shaped(m.core) && m.core.names == c.names && m.core.status == c.status && MoveGains(c, p, m, j)
  {
    hide CoreOk, PhaseFits, TickWorker, MoveGains, Claims;
    if p.Commit? || p.Fail? {
      LateGains(c, d, p, choice, j);
    } else {
      EarlyGains(c, d, p, choice, j);
    }
  }

  lemma OutsideGains(c: Core, d: Desk, p: Phase, choice: Choice, j: nat)
    requires CoreOk(c) && !Inside(p) && j < |c.names| && c.status == Rejected
    ensures var m := TickWorker(c, d, p, choice);
      Shaped(m.core) && m.core.names == c.names && m.core.status == c.status && MoveGains(c, p, m, j)
  {
    hide SnapFits, CountsFit, IdemFits, StepsFit, Ordered, AddGate, AddToken;
    assert forall from :: !LegalStep(from, Pending);
  }

  lemma TickGains(c: Core, d: Desk, p: Phase, choice: Choice, j: nat)
    requires CoreOk(c) && PhaseFits(c, d, p) && !Claims(c, p) && j < |c.names| && c.status == Rejected
    ensures var m := TickWorker(c, d, p, choice);
      Shaped(m.core) && m.core.names == c.names && m.core.status == c.status && MoveGains(c, p, m, j)
  {
    hide *;
    if Inside(p) {
      InsideGains(c, d, p, choice, j);
    } else {
      OutsideGains(c, d, p, choice, j);
    }
  }

  lemma TokensKept(s: State, w: nat, choice: Choice)
    requires Inv(s) && w in s.workers
    ensures DeskMoves(s.desk, TickWorker(s.core, s.desk, s.workers[w], choice).desk)
  {
    hide CoreOk, DeskOk, TickWorker, CoreMoves;
    if Inside(s.workers[w]) {
      InsideGood(s.core, s.desk, s.workers[w], choice);
    } else {
      OutsideGood(s.core, s.desk, s.workers[w], choice);
    }
  }

  lemma AdvanceBack(s: State, d': Desk, j: nat)
    requires Inv(s) && DeskMoves(s.desk, d') && CanAdvance(d', s.resolvers, j)
    ensures CanAdvance(s.desk, s.resolvers, j)
  {
    hide CoreOk, DeskOk, Exclusive;
    var r :| r in s.resolvers && Advancing(d', s.resolvers[r], j);
    assert ResolutionFits(s.desk, s.resolvers[r]);
    assert Advancing(s.desk, s.resolvers[r], j);
  }

  lemma TickNoBetter(s: State, w: nat, choice: Choice)
    requires Inv(s) && s.core.status == Rejected && w in s.workers && !Claims(s.core, s.workers[w])
    ensures NoBetter(s, MoveWorker(s, w, choice)) && MoveWorker(s, w, choice).core.status == Rejected
  {
    hide TickWorker, Ordered, StepsFit, IdemFits, CountsFit, DeskOk, Exclusive, CanAdvance, Recorded;
    var t := MoveWorker(s, w, choice);
    var p := s.workers[w];
    assert PhaseFits(s.core, s.desk, p);
    TokensKept(s, w, choice);
    TickShape(s.core, s.desk, p, choice);
    forall j | 0 <= j < |s.core.names|
      ensures Passable(t, j) ==> Passable(s, j)
      ensures Claimable(t, j) ==> Claimable(s, j)
      ensures Recorded(t.core, j) || CanRecord(t.workers, j) ==> Recorded(s.core, j) || CanRecord(s.workers, j)
    {
      TickGains(s.core, s.desk, p, choice, j);
      if CanAdvance(t.desk, s.resolvers, j) {
        AdvanceBack(s, t.desk, j);
      }
      OwnersBack(s, w, t, j);
    }
  }

  lemma TickShape(c: Core, d: Desk, p: Phase, choice: Choice)
    requires CoreOk(c) && PhaseFits(c, d, p) && !Claims(c, p) && c.status == Rejected
    ensures var m := TickWorker(c, d, p, choice);
      Shaped(m.core) && m.core.names == c.names && m.core.status == c.status
  {
    hide StepsFit, IdemFits, CountsFit, Ordered, StatusFits, AddGate, AddToken, Recorded;
  }

  /** Whoever can finish, fail or record step `j` after the move could before. */
  lemma OwnersBack(s: State, w: nat, t: State, j: nat)
    requires Shaped(s.core) && Shaped(t.core) && t.core.names == s.core.names && j < |s.core.names|
    requires w in s.workers && w in t.workers && t.workers == s.workers[w := t.workers[w]]
    requires Owns(t.workers[w], j) ==>
      Owns(s.workers[w], j) && !s.workers[w].Commit? && (s.workers[w].Fail? ==> t.workers[w].Fail?)
    requires Records(t.workers[w], j) ==> Records(s.workers[w], j)
    ensures CanFinish(t.workers, j) ==> CanFinish(s.workers, j)
    ensures CanFail(t.workers, j) ==> CanFail(s.workers, j)
    ensures CanRecord(t.workers, j) ==> CanRecord(s.workers, j)
  {
    hide Owns, Records;
    if v :| v in t.workers && Owns(t.workers[v], j) && !t.workers[v].Fail? {
      assert v in s.workers && Owns(s.workers[v], j) && !s.workers[v].Fail?;
    }
    if v :| v in t.workers && Owns(t.workers[v], j) && !t.workers[v].Commit? {
      assert v in s.workers && Owns(s.workers[v], j) && !s.workers[v].Commit?;
    }
    if v :| v in t.workers && Records(t.workers[v], j) {
      assert v in s.workers && Records(s.workers[v], j);
    }
  }

  // ----- The way a worker has after its move it had before -----

  lemma PassedFresh(s: State, k: nat)
    requires CoreOk(s.core) && k < |s.core.names| && PassableWith(s, s.core.steps, k)
    ensures Passable(s, k)
  {
    hide CountsFit, IdemFits, Ordered, Recorded;
    assert StatusFits(|s.core.log|, s.core.steps[k], k);
    if CanRecord(s.workers, k) {
      var w :| w in s.workers && Records(s.workers[w], k);
      assert Owns(s.workers[w], k) && !s.workers[w].Fail?;
    }
  }

  lemma ClearFresh(s: State, i: nat, j: nat)
    requires CoreOk(s.core) && i <= j <= |s.core.names| && ClearFrom(s, s.core.steps, i, j)
    ensures forall k :: i <= k < j ==> Passable(s, k)
  {
    hide PassableWith, Passable, CountsFit, IdemFits, Ordered, StepsFit;
    forall k | i <= k < j
      ensures Passable(s, k)
    {
      PassedFresh(s, k);
    }
  }

  lemma FromLoad(s: State)
    requires CoreOk(s.core) && WayFrom(s, s.core.steps, 0)
    ensures NewWay(s)
  {
    hide Claimable, PassableWith, Passable, CountsFit, IdemFits, Ordered, StepsFit, ClearFrom;
    var j :| 0 <= j < |s.core.names| && Claimable(s, j) && ClearFrom(s, s.core.steps, 0, j);
    ClearFresh(s, 0, j);
    assert ClearTo(s, j);
  }

  lemma OneFurther(s: State, snap: seq<Step>, i: nat)
    requires Shaped(s.core) && |snap| == |s.core.names| && i < |snap|
    requires PassableWith(s, snap, i) && WayFrom(s, snap, i + 1)
    ensures WayFrom(s, snap, i)
  {
    hide Claimable, PassableWith;
    var j :| i + 1 <= j < |s.core.names| && Claimable(s, j) && !Finished(snap[j].status)
             && ClearFrom(s, snap, i + 1, j);
    assert ClearFrom(s, snap, i, j);
  }

  lemma RightHere(s: State, snap: seq<Step>, i: nat)
    requires Shaped(s.core) && |snap| == |s.core.names| && i < |snap|
    requires Claimable(s, i) && !Finished(snap[i].status)
    ensures WayFrom(s, snap, i)
  {
    hide Claimable;
    assert ClearFrom(s, snap, i, i);
  }

  /** How the walk of a worker goes on from phase `p` to phase `q`. */
  predicate GoesOn(c: Core, p: Phase, q: Phase) {
    || (q.Visit? && ((p.Load? && q == Visit(0, c.steps))
                     || (p.Visit? && p.i < |p.snap| && q == Visit(p.i + 1, p.snap)
                         && (Finished(p.snap[p.i].status) || (!IsGate(p.snap[p.i].name) && Recorded(c, p.i))))
                     || (p.Commit? && q == Visit(p.i + 1, p.snap))))
    || (q.Claim? && p.Visit? && p.i < |p.snap| && q == Claim(p.i, p.snap) && !Finished(p.snap[p.i].status))
    || (Position(q).Some? && !q.Visit? && Position(p) == Position(q) && SnapOf(p) == SnapOf(q) && !p.Visit?)
    || (!q.Claim? && Position(q).None?)
  }

  lemma TickGoesOn(c: Core, d: Desk, p: Phase, choice: Choice)
    requires c.status == Rejected && !Claims(c, p)
    ensures GoesOn(c, p, TickWorker(c, d, p, choice).phase)
  {
    hide AddGate, AddToken, Complete, Bump, ReserveKey, WriteStep, MayWrite, Recorded, Finished;
    assert forall i :: !MayWrite(c, i, Pending) by {
      NoPending(c);
    }
  }

  lemma NoPending(c: Core)
    ensures forall i :: !MayWrite(c, i, Pending)
  {
    assert forall from :: !LegalStep(from, Pending);
  }

  /** The worker's own way after its move was there before. */
  lemma TickWay(s: State, w: nat, q: Phase)
    requires Inv(s) && w in s.workers && GoesOn(s.core, s.workers[w], q) && OldWay(s, q)
    ensures WayIn(s)
  {
    hide Claimable, DeskOk, Exclusive, Recorded, CanRecord, WayFrom, NewWay, StepsFit, CountsFit, IdemFits, Finished;
    var p := s.workers[w];
    assert PhaseFits(s.core, s.desk, p);
    if p.Load? && q.Visit? {
      FromLoad(s);
    } else if p.Visit? && q.Visit? {
      assert PassableWith(s, p.snap, p.i);
      OneFurther(s, p.snap, p.i);
      assert OldWay(s, p);
    } else if p.Visit? && q.Claim? {
      RightHere(s, p.snap, p.i);
      assert OldWay(s, p);
    } else {
      assert OldWay(s, p);
    }
  }

  lemma ClaimWay(s: State, w: nat)
    requires Inv(s) && w in s.workers && Claims(s.core, s.workers[w])
    ensures WayIn(s)
  {
    hide DeskOk, Exclusive, NewWay, StepsFit, CountsFit, IdemFits;
    assert PhaseFits(s.core, s.desk, s.workers[w]);
    assert Claimable(s, s.workers[w].i);
    assert OldWay(s, s.workers[w]);
  }

  lemma TickBack(s: State, w: nat, choice: Choice)
    requires Inv(s) && s.core.status == Rejected && w in s.workers
    requires Shaped(MoveWorker(s, w, choice).core) && WayIn(MoveWorker(s, w, choice))
    ensures WayIn(s)
  {
    hide Inv, TickWorker, WayIn, NoBetter, OldWay;
    if Claims(s.core, s.workers[w]) {
      ClaimWay(s, w);
    } else {
      var t := MoveWorker(s, w, choice);
      TickNoBetter(s, w, choice);
      TickGoesOn(s.core, s.desk, s.workers[w], choice);
      ShapedInv(s);
      if OldWay(t, t.workers[w]) {
        OldWayBack(s, t, t.workers[w]);
        TickWay(s, w, t.workers[w]);
      }
      WayBack(s, t);
    }
  }

  lemma ShapedInv(s: State)
    requires Inv(s)
    ensures Shaped(s.core)
  {
  }

  // ----- Resolvers and the environment -----

  /** What a resolver's move can do for step `j`. */
  ghost predicate RulingGains(c: Core, d: Desk, q: Resolution, m: Ruling, j: nat)
    requires Shaped(c) && Shaped(m.core) && m.core.names == c.names && j < |c.names|
  {
    && (Advancing(m.desk, m.next, j) ==> Advancing(d, q, j))
    && (m.core.steps[j].status == c.steps[j].status || (Advancing(d, q, j) && IsGate(c.names[j])))
    && m.core.idem == c.idem
  }

  lemma AdvanceGains(c: Core, d: Desk, t: nat, j: nat)
    requires CoreOk(c) && t in d.tokens && GatesFit(c.names, |c.log|, d) && j < |c.names|
    ensures var m := AdvanceGate(c, d, t);
      Shaped(m.core) && m.core.names == c.names && RulingGains(c, d, Advance(t), m, j)
  {
    hide CountsFit, IdemFits, StepsFit, Ordered;
  }

  lemma ResolveGains(c: Core, d: Desk, q: Resolution, j: nat)
    requires CoreOk(c) && c.status == Rejected && ResolutionFits(d, q) && GatesFit(c.names, |c.log|, d) && j < |c.names|
    ensures var m := TickResolver(c, d, q);
      Shaped(m.core) && m.core.names == c.names && RulingGains(c, d, q, m, j)
  {
    hide CountsFit, IdemFits, StepsFit, Ordered, MayDecide, AdvanceGate, GatesFit;
    if q.Advance? {
      AdvanceGains(c, d, q.token, j);
    }
  }

  lemma ResolveShape(c: Core, d: Desk, q: Resolution)
    requires CoreOk(c) && c.status == Rejected && ResolutionFits(d, q)
    ensures var m := TickResolver(c, d, q);
      && Shaped(m.core) && m.core.names == c.names && m.core.status == Rejected && DeskTokens(d, m.desk)
  {
    hide CountsFit, IdemFits, StepsFit, Ordered, MayDecide;
  }

  /** Tokens keep their step. */
  ghost predicate DeskTokens(d: Desk, d': Desk) {
    d'.tokens.Keys == d.tokens.Keys && forall t <- d.tokens :: d'.tokens[t].step == d.tokens[t].step
  }

  lemma ResolveNoBetter(s: State, r: nat)
    requires Inv(s) && s.core.status == Rejected && r in s.resolvers
    ensures NoBetter(s, MoveResolver(s, r)) && MoveResolver(s, r).core.status == Rejected
  {
    hide TickResolver, Ordered, StepsFit, IdemFits, CountsFit, GatesFit, GatesApproved, DecisionsFit, Exclusive,
         CanFinish, CanFail, CanRecord;
    var t := MoveResolver(s, r);
    var q := s.resolvers[r];
    assert ResolutionFits(s.desk, q);
    ResolveShape(s.core, s.desk, q);
    forall j | 0 <= j < |s.core.names|
      ensures Passable(t, j) ==> Passable(s, j)
      ensures Claimable(t, j) ==> Claimable(s, j)
      ensures Recorded(t.core, j) ==> Recorded(s.core, j)
    {
      ResolveGains(s.core, s.desk, q, j);
      AdvancersBack(s, r, t, j);
      if Advancing(s.desk, q, j) {
        assert CanAdvance(s.desk, s.resolvers, j);
      }
    }
  }

  lemma AdvancersBack(s: State, r: nat, t: State, j: nat)
    requires r in s.resolvers && r in t.resolvers && t.resolvers == s.resolvers[r := t.resolvers[r]]
    requires DeskTokens(s.desk, t.desk)
    requires Advancing(t.desk, t.resolvers[r], j) ==> Advancing(s.desk, s.resolvers[r], j)
    ensures CanAdvance(t.desk, t.resolvers, j) ==> CanAdvance(s.desk, s.resolvers, j)
  {
    if v :| v in t.resolvers && Advancing(t.desk, t.resolvers[v], j) {
      assert v in s.resolvers && Advancing(s.desk, s.resolvers[v], j);
    }
  }

  /** The other events: nobody gets further by a newcomer, a crash, a lost record or an operator. */
  lemma AmbientNoBetter(s: State, e: Event)
    requires Inv(s) && s.core.status == Rejected && !e.Tick? && !e.Resolve?
    ensures NoBetter(s, Next(s, e)) && Next(s, e).core.status == Rejected
    ensures forall w <- Next(s, e).workers ::
      (w in s.workers && Next(s, e).workers[w] == s.workers[w]) || Next(s, e).workers[w] == Gone || Next(s,
            e).workers[w] == Fetch
  {
    hide Ordered, StepsFit, IdemFits, CountsFit, DeskOk, Exclusive, TickWorker, TickResolver;
    var t := Next(s, e);
    assert t.core == s.core.(idem := t.core.idem) && t.desk == s.desk;
    forall j | 0 <= j < |s.core.names|
      ensures Passable(t, j) ==> Passable(s, j)
      ensures Claimable(t, j) ==> Claimable(s, j)
      ensures Recorded(t.core, j) || CanRecord(t.workers, j) ==> Recorded(s.core, j) || CanRecord(s.workers, j)
    {
      FewerHelpers(s, t, j);
    }
  }

  lemma FewerHelpers(s: State, t: State, j: nat)
    requires forall w <- t.workers ::
      (w in s.workers && t.workers[w] == s.workers[w]) || t.workers[w] == Gone || t.workers[w] == Fetch
    requires forall r <- t.resolvers ::
      (r in s.resolvers && t.resolvers[r] == s.resolvers[r]) || !t.resolvers[r].Advance?
    requires t.desk == s.desk
    ensures CanFinish(t.workers, j) ==> CanFinish(s.workers, j)
    ensures CanFail(t.workers, j) ==> CanFail(s.workers, j)
    ensures CanRecord(t.workers, j) ==> CanRecord(s.workers, j)
    ensures CanAdvance(t.desk, t.resolvers, j) ==> CanAdvance(s.desk, s.resolvers, j)
  {
  }

  /** No event opens a way that was not there, and a rejected run stays rejected. */
  lemma NextBack(s: State, e: Event)
    requires Inv(s) && s.core.status == Rejected
    ensures Inv(Next(s, e)) && Shaped(s.core) && Shaped(Next(s, e).core)
    ensures WayIn(Next(s, e)) ==> WayIn(s)
    ensures Next(s, e).core.status == Rejected
  {
    hide Inv, TickWorker, TickResolver, WayIn, NoBetter, OldWay;
    NextInv(s, e);
    ShapedInv(s);
    ShapedInv(Next(s, e));
    var t := Next(s, e);
    if e.Tick? && e.w in s.workers {
      StaysRejected(s, e.w, e.choice);
      if WayIn(t) {
        TickBack(s, e.w, e.choice);
      }
    } else if e.Resolve? && e.r in s.resolvers {
      ResolveNoBetter(s, e.r);
      if WayIn(t) {
        WayBack(s, t);
      }
    } else if !e.Tick? && !e.Resolve? {
      AmbientNoBetter(s, e);
      IdleHasNoWay(t);
      if WayIn(t) {
        WayBack(s, t);
      }
    }
  }

  lemma IdleHasNoWay(t: State)
    requires Shaped(t.core)
    ensures !OldWay(t, Gone) && !OldWay(t, Fetch)
  {
  }

  lemma StaysRejected(s: State, w: nat, choice: Choice)
    requires Inv(s) && s.core.status == Rejected && w in s.workers
    ensures MoveWorker(s, w, choice).core.status == Rejected
  {
    hide Inv, MayWrite, VisitStep, AddGate, AddToken, Bump;
  }

  lemma EntersWay(s: State, w: nat)
    requires Inv(s) && Enters(s, w)
    ensures Shaped(s.core) && WayIn(s)
  {
    hide Inv, WayIn, WriteStep, ReserveKey, Complete, Bump;
    ShapedInv(s);
    assert Claims(s.core, s.workers[w]);
    ClaimWay(s, w);
  }

  lemma {:induction false} ExecBack(s: State, events: seq<Event>, w: nat)
    requires Inv(s) && s.core.status == Rejected && Enters(Exec(s, events), w)
    ensures Shaped(s.core) && WayIn(s)
    decreases |events|
  {
    hide Inv, WayIn, Next, Enters;
    if events == [] {
      EntersWay(s, w);
    } else {
      NextBack(s, events[0]);
      ExecBack(Next(s, events[0]), events[1..], w);
    }
  }
}
