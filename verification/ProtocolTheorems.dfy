/** The protocol's guarantees over every interleaving, and the promises that concurrency breaks. */
module ProtocolTheorems {
  import opened Wrappers
  import opened States
  import opened Protocol
  import opened ProtocolSafety

  /** Some interleaving of workers, resolvers, crashes and losses leads a fresh run to `s`. */
  ghost predicate Reachable(names: seq<StepName>, s: State) {
    exists events :: s == Exec(Init(names), events)
  }

  lemma ReachableInv(names: seq<StepName>, s: State)
    requires Reachable(names, s)
    ensures Inv(s) && s.core.names == names
  {
    var events :| s == Exec(Init(names), events);
    InitInv(names);
    ExecInv(Init(names), events);
    NamesKept(Init(names), events);
  }

  lemma {:induction false} NamesKept(s: State, events: seq<Event>)
    ensures Exec(s, events).core.names == s.core.names
    decreases |events|
  {
    if events != [] {
      NamesKept(Next(s, events[0]), events[1..]);
    }
  }

  // ----- Order, gates and success -----

  /** The steps by name, in the order of their first completion. */
  function CompletedNames(c: Core): (done: seq<StepName>)
    requires forall j :: 0 <= j < |c.log| ==> c.log[j] < |c.names|
  {
    seq(|c.log|, j requires 0 <= j < |c.log| => c.names[c.log[j]])
  }

  /** Steps complete in declared order, whatever the interleaving, and a run is marked succeeded only
      when every declared step has completed. */
  lemma CompletionFollowsDeclaration(names: seq<StepName>, s: State)
    requires Reachable(names, s)
    ensures forall j :: 0 <= j < |s.core.log| ==> s.core.log[j] < |s.core.names|
    ensures CompletedNames(s.core) <= names
    ensures s.core.status == RunStatus.Succeeded ==> CompletedNames(s.core) == names
  {
    ReachableInv(names, s);
    assert CompletedNames(s.core) == names[..|s.core.log|];
  }

  /** Whoever is inside a handler has every earlier step completed, and for every earlier gate an
      approve decision is stored, made by an actor with exactly the required role. */
  lemma HandlerRunsAfterApproval(names: seq<StepName>, s: State, w: nat, i: nat, g: nat)
    requires Reachable(names, s) && w in s.workers && s.workers[w].Handling? && s.workers[w].i == i
    ensures i < |names| && i <= |s.core.log|
    ensures g < i && IsGate(names[g]) ==>
      exists k :: 0 <= k < |s.desk.decisions| && s.desk.decisions[k].approve
        && s.desk.decisions[k].step == g && s.desk.decisions[k].gate in s.desk.gates
        && MayDecide(s.desk.decisions[k].actor, s.desk.gates[s.desk.decisions[k].gate].role)
  {
    ReachableInv(names, s);
    assert PhaseFits(s.core, s.desk, s.workers[w]);
    if g < i && IsGate(names[g]) {
      assert ApprovalStored(s.desk.decisions, g);
      var k :| 0 <= k < |s.desk.decisions| && s.desk.decisions[k].approve && s.desk.decisions[k].step == g;
    }
  }

  // ----- One owner, at most one success -----

  /** At most one worker is inside a step at a time, and its handler returns at most once more often
      than the idempotency store raised on it. */
  lemma OneOwnerOneSuccess(names: seq<StepName>, s: State, v: nat, w: nat, i: nat)
    requires Reachable(names, s) && i < |names|
    ensures v in s.workers && w in s.workers && Owns(s.workers[v], i) && Owns(s.workers[w], i) ==> v == w
    ensures i < |s.core.successes| == |s.core.faults| && s.core.successes[i] <= 1 + s.core.faults[i]
  {
    ReachableInv(names, s);
  }

  predicate NoIdemFault(events: seq<Event>) {
    forall k :: 0 <= k < |events| ==> !(events[k].Tick? && events[k].choice.IdemRaised?)
  }

  lemma {:induction false} FaultsKept(s: State, events: seq<Event>)
    requires NoIdemFault(events)
    ensures Exec(s, events).core.faults == s.core.faults
    decreases |events|
  {
    if events != [] {
      assert Next(s, events[0]).core.faults == s.core.faults;
      FaultsKept(Next(s, events[0]), events[1..]);
    }
  }

  /** With an idempotency store that never raises, even one that forgets everything, every handler
      returns successfully at most once over the whole life of the run. */
  lemma AtMostOnce(names: seq<StepName>, events: seq<Event>, i: nat)
    requires NoIdemFault(events) && i < |names|
    ensures i < |Exec(Init(names), events).core.successes|
    ensures Exec(Init(names), events).core.successes[i] <= 1
  {
    var s := Exec(Init(names), events);
    assert Reachable(names, s);
    ReachableInv(names, s);
    FaultsKept(Init(names), events);
  }

  // ----- A step whose worker crashed -----

  /** Step `i` is stored as running and no worker is inside it. */
  ghost predicate Stranded(s: State, i: nat) {
    && i < |s.core.steps| && s.core.steps[i].status == StepStatus.Running
    && forall w :: w in s.workers ==> !Owns(s.workers[w], i)
  }

  lemma StrandedReturn(c: Core, d: Desk, p: Phase, choice: Choice, i: nat)
    requires CoreOk(c) && PhaseFits(c, d, p) && p.Handling? && !Owns(p, i) && |c.log| <= i
    ensures |TickWorker(c, d, p, choice).core.log| <= i
  {
    LogMember(c, p.i);
  }

  /** A tick of a worker that is not inside step `i` leaves the running step `i` alone. */
  ghost predicate LeavesAlone(c: Core, p: Phase, m: Move, i: nat)
    requires i < |c.steps|
  {
    && |m.core.steps| == |c.steps| && m.core.steps[i] == c.steps[i] && !Owns(m.phase, i)
    && (!p.Handling? ==> m.core.log == c.log)
  }

  lemma StrandedInside(c: Core, d: Desk, p: Phase, choice: Choice, i: nat)
    requires Shaped(c) && PhaseFits(c, d, p) && !Owns(p, i) && Inside(p)
    requires i < |c.steps| && c.steps[i].status == StepStatus.Running
    ensures LeavesAlone(c, p, TickWorker(c, d, p, choice), i)
  {
    hide Bump, SnapFits;
  }

  lemma StrandedOutside(c: Core, d: Desk, p: Phase, choice: Choice, i: nat)
    requires Shaped(c) && !Owns(p, i) && !Inside(p)
    requires i < |c.steps| && c.steps[i].status == StepStatus.Running
    ensures LeavesAlone(c, p, TickWorker(c, d, p, choice), i)
  {
    hide AddGate, AddToken;
  }

  lemma StrandedTick(c: Core, d: Desk, p: Phase, choice: Choice, i: nat)
    requires Shaped(c) && PhaseFits(c, d, p) && !Owns(p, i)
    requires i < |c.steps| && c.steps[i].status == StepStatus.Running
    ensures LeavesAlone(c, p, TickWorker(c, d, p, choice), i)
  {
    hide *;
    if Inside(p) {
      StrandedInside(c, d, p, choice, i);
    } else {
      StrandedOutside(c, d, p, choice, i);
    }
  }

  lemma StrandedNext(s: State, e: Event, i: nat)
    requires Inv(s) && Stranded(s, i)
    ensures Stranded(Next(s, e), i)
    ensures |s.core.log| <= i ==> |Next(s, e).core.log| <= i
  {
    hide TickWorker;
    if e.Tick? && e.w in s.workers {
      var p := s.workers[e.w];
      StrandedTick(s.core, s.desk, p, e.choice, i);
      if p.Handling? && |s.core.log| <= i {
        StrandedReturn(s.core, s.desk, p, e.choice, i);
      }
    } else if e.Resolve? && e.r in s.resolvers {
      var q := s.resolvers[e.r];
      assert ResolutionFits(s.desk, q);
      if q.Advance? {
        LogMember(s.core, s.desk.tokens[q.token].step);
      }
    }
  }

  /** A step left running by a crashed worker is never entered again, by any worker, whatever
      happens later; and if its handler had not returned, the run can never succeed. */
  lemma {:induction false} StrandedForever(s: State, events: seq<Event>, i: nat)
    requires Inv(s) && Stranded(s, i)
    ensures Stranded(Exec(s, events), i)
    ensures |s.core.log| <= i ==>
      |Exec(s, events).core.log| <= i && Exec(s, events).core.status != RunStatus.Succeeded
    decreases |events|
  {
    if events != [] {
      NextInv(s, events[0]);
      StrandedNext(s, events[0], i);
      StrandedForever(Next(s, events[0]), events[1..], i);
    }
  }

  /** The in-process retry of a failed step is refused in every reachable state: the worker leaves
      with the stored run untouched. */
  lemma RetryAlwaysRefused(c: Core, d: Desk, i: nat, snap: seq<Step>)
    ensures RetryStep(c, d, i, snap) == Made(c, d, Gone)
  {
    assert forall from :: !LegalStep(from, Pending);
  }

  // ----- Single use of tokens -----

  predicate HoldsToken(q: Resolution, t: nat) {
    match q
    case ReadGate(u, _, _) => u == t
    case Decide(u, _, _, _) => u == t
    case _ => false
  }

  predicate Spent(d: Desk, t: nat) {
    t in d.tokens && d.tokens[t].used
  }

  /** Decisions carry distinct spent tokens, and a resolver on its way to a decision holds a spent
      token that nobody else holds and no decision carries. */
  ghost predicate SingleUse(d: Desk, resolvers: map<nat, Resolution>) {
    && (forall t :: t in d.tokens ==> t < d.nextId)
    && (forall k :: 0 <= k < |d.decisions| ==> Spent(d, d.decisions[k].token))
    && (forall j, k :: 0 <= j < k < |d.decisions| ==> d.decisions[j].token != d.decisions[k].token)
    && (forall r, t: nat :: r in resolvers && HoldsToken(resolvers[r], t) ==> Spent(d, t))
    && (forall r, k :: r in resolvers && 0 <= k < |d.decisions| ==>
          !HoldsToken(resolvers[r], d.decisions[k].token))
    && (forall r, q, t: nat :: (r in resolvers && q in resolvers
          && HoldsToken(resolvers[r], t) && HoldsToken(resolvers[q], t)) ==> r == q)
  }

  /** A resolver takes hold of an unspent token. */
  lemma SpendKeeps(d: Desk, resolvers: map<nat, Resolution>, r: nat, t: nat, q: Resolution)
    requires SingleUse(d, resolvers) && t in d.tokens && !d.tokens[t].used && r in resolvers
    requires forall u: nat :: HoldsToken(q, u) ==> u == t
    ensures SingleUse(d.(tokens := d.tokens[t := d.tokens[t].(used := true)]), resolvers[r := q])
  {
    var d' := d.(tokens := d.tokens[t := d.tokens[t].(used := true)]);
    assert !Spent(d, t) && forall u :: Spent(d, u) ==> Spent(d', u);
    assert forall k :: 0 <= k < |d.decisions| ==> Spent(d, d.decisions[k].token);
    assert forall p :: p in resolvers ==> !HoldsToken(resolvers[p], t);
  }

  /** A resolver turns the token it holds into a decision. */
  lemma SaveKeeps(d: Desk, resolvers: map<nat, Resolution>, r: nat, made: Decision, q: Resolution)
    requires SingleUse(d, resolvers) && r in resolvers && HoldsToken(resolvers[r], made.token)
    requires forall u: nat :: !HoldsToken(q, u)
    ensures SingleUse(d.(decisions := d.decisions + [made]), resolvers[r := q])
  {
    var d' := d.(decisions := d.decisions + [made]);
    assert forall u :: Spent(d, u) ==> Spent(d', u);
  }

  /** A resolver moves on without taking hold of anything new. */
  lemma PassKeeps(d: Desk, resolvers: map<nat, Resolution>, r: nat, q: Resolution, gates: map<nat, Gate>)
    requires SingleUse(d, resolvers)
    requires forall u: nat :: HoldsToken(q, u) ==> r in resolvers && HoldsToken(resolvers[r], u)
    ensures SingleUse(d.(gates := gates), resolvers[r := q])
  {
    var d' := d.(gates := gates);
    assert forall u :: Spent(d, u) ==> Spent(d', u);
  }

  lemma SingleUseResolve(c: Core, d: Desk, resolvers: map<nat, Resolution>, r: nat)
    requires SingleUse(d, resolvers) && r in resolvers
    ensures var m := TickResolver(c, d, resolvers[r]); SingleUse(m.desk, resolvers[r := m.next])
  {
    var q := resolvers[r];
    var m := TickResolver(c, d, q);
    if q.Spend? && m.next.ReadGate? {
      SpendKeeps(d, resolvers, r, q.token, m.next);
    } else if q.Decide? {
      assert HoldsToken(q, q.token) && Spent(d, q.token);
      SaveKeeps(d, resolvers, r, Decision(d.tokens[q.token].gate, d.tokens[q.token].step,
                                          q.approve, q.actor, q.token), m.next);
    } else {
      PassKeeps(d, resolvers, r, m.next, m.desk.gates);
    }
  }

  /** A worker only adds gates and unspent tokens. */
  ghost predicate DeskGrown(d: Desk, d': Desk) {
    && d'.decisions == d.decisions && d.nextId <= d'.nextId
    && (forall t :: t in d.tokens ==> t in d'.tokens && d'.tokens[t] == d.tokens[t])
    && (forall t :: t in d'.tokens ==> t in d.tokens || t < d'.nextId)
  }

  lemma TickDesk(c: Core, d: Desk, p: Phase, choice: Choice, resolvers: map<nat, Resolution>)
    requires SingleUse(d, resolvers)
    ensures DeskGrown(d, TickWorker(c, d, p, choice).desk)
  {
    hide VisitStep, Bump, Complete, ReserveKey, WriteStep;
  }

  lemma DeskGrownKeeps(d: Desk, d': Desk, resolvers: map<nat, Resolution>)
    requires SingleUse(d, resolvers) && DeskGrown(d, d')
    ensures SingleUse(d', resolvers)
  {
    assert forall t :: Spent(d, t) ==> Spent(d', t);
  }

  lemma SingleUseNext(s: State, e: Event)
    requires SingleUse(s.desk, s.resolvers)
    ensures SingleUse(Next(s, e).desk, Next(s, e).resolvers)
  {
    hide TickResolver, TickWorker, SingleUse;
    match e
    case Tick(w, choice) =>
      if w in s.workers {
        var m := TickWorker(s.core, s.desk, s.workers[w], choice);
        TickDesk(s.core, s.desk, s.workers[w], choice, s.resolvers);
        DeskGrownKeeps(s.desk, m.desk, s.resolvers);
      }
    case Resolve(r) =>
      if r in s.resolvers {
        SingleUseResolve(s.core, s.desk, s.resolvers, r);
      }
    case Present(r, t, approve, actor) =>
      if r !in s.resolvers {
        PassKeeps(s.desk, s.resolvers, r, Spend(t, approve, actor), s.desk.gates);
      }
    case CrashResolver(r) => PassKeeps(s.desk, s.resolvers, r, Closed, s.desk.gates);
    case _ =>
  }

  lemma {:induction false} SingleUseExec(s: State, events: seq<Event>)
    requires SingleUse(s.desk, s.resolvers)
    ensures SingleUse(Exec(s, events).desk, Exec(s, events).resolvers)
    decreases |events|
  {
    if events != [] {
      SingleUseNext(s, events[0]);
      SingleUseExec(Next(s, events[0]), events[1..]);
    }
  }

  /** Under every interleaving of concurrent submissions, a token yields at most one decision. */
  lemma TokenDecidesAtMostOnce(names: seq<StepName>, s: State)
    requires Reachable(names, s)
    ensures forall j, k :: 0 <= j < k < |s.desk.decisions| ==>
      s.desk.decisions[j].token != s.desk.decisions[k].token
    ensures forall k :: 0 <= k < |s.desk.decisions| ==>
      s.desk.decisions[k].token in s.desk.tokens && s.desk.tokens[s.desk.decisions[k].token].used
  {
    var events :| s == Exec(Init(names), events);
    SingleUseExec(Init(names), events);
  }
}
