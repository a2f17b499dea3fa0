/** How many decisions one gate request can receive when submissions overlap. */
module ProtocolGates {
  import opened Wrappers
  import opened States
  import opened Protocol
  import opened ProtocolSafety
  import opened ProtocolTheorems
  import opened ProtocolRuns

  // ----- Rulings and tokens -----

  function Rulings(decisions: seq<Decision>, g: nat): nat {
    if decisions == [] then 0
    else Rulings(decisions[..|decisions| - 1], g) + if decisions[|decisions| - 1].gate == g then 1 else 0
  }

  /** The tokens that decided gate `g`. */
  function Deciders(decisions: seq<Decision>, g: nat): set<nat> {
    set k: nat | k < |decisions| && decisions[k].gate == g :: decisions[k].token
  }

  function TokensOf(d: Desk, g: nat): set<nat> {
    set t | t in d.tokens && d.tokens[t].gate == g
  }

  lemma {:induction false} RulingsCount(decisions: seq<Decision>, g: nat)
    requires forall j, k :: 0 <= j < k < |decisions| ==> decisions[j].token != decisions[k].token
    ensures |Deciders(decisions, g)| == Rulings(decisions, g)
    decreases |decisions|
  {
    if decisions != [] {
      var n := |decisions| - 1;
      var before := decisions[..n];
      RulingsCount(before, g);
      if decisions[n].gate == g {
        assert Deciders(decisions, g) == Deciders(before, g) + {decisions[n].token};
        assert decisions[n].token !in Deciders(before, g);
      } else {
        assert Deciders(decisions, g) == Deciders(before, g);
      }
    }
  }

  /** Every decision answers the gate its token was issued for. */
  ghost predicate TokensMatch(d: Desk) {
    forall k :: 0 <= k < |d.decisions| ==>
      d.decisions[k].token in d.tokens && d.tokens[d.decisions[k].token].gate == d.decisions[k].gate
  }

  lemma TickMatches(c: Core, d: Desk, p: Phase, choice: Choice, resolvers: map<nat, Resolution>)
    requires TokensMatch(d) && SingleUse(d, resolvers)
    ensures TokensMatch(TickWorker(c, d, p, choice).desk)
  {
    hide TickWorker;
    TickDesk(c, d, p, choice, resolvers);
  }

  lemma ResolverMatches(c: Core, d: Desk, q: Resolution)
    requires TokensMatch(d)
    ensures TokensMatch(TickResolver(c, d, q).desk)
  {
    hide MayDecide, Complete, WriteStep;
  }

  lemma {:induction false} MatchExec(s: State, events: seq<Event>)
    requires TokensMatch(s.desk) && SingleUse(s.desk, s.resolvers)
    ensures TokensMatch(Exec(s, events).desk)
    decreases |events|
  {
    hide TickWorker, TickResolver, TokensMatch, SingleUse;
    if events != [] {
      var e := events[0];
      if e.Tick? && e.w in s.workers {
        TickMatches(s.core, s.desk, s.workers[e.w], e.choice, s.resolvers);
      } else if e.Resolve? && e.r in s.resolvers {
        ResolverMatches(s.core, s.desk, s.resolvers[e.r]);
      }
      SingleUseNext(s, e);
      MatchExec(Next(s, e), events[1..]);
    }
  }

  /** In every reachable state the decisions on a gate request are at most the tokens issued for it, and
      each was made with a token of its own. */
  lemma RulingsWithinTokens(names: seq<StepName>, s: State, g: nat)
    requires Reachable(names, s)
    ensures Deciders(s.desk.decisions, g) <= TokensOf(s.desk, g)
    ensures Rulings(s.desk.decisions, g) == |Deciders(s.desk.decisions, g)| <= |TokensOf(s.desk, g)|
  {
    hide Exec, Rulings;
    var events :| s == Exec(Init(names), events);
    assert TokensMatch(Init(names).desk);
    MatchExec(Init(names), events);
    TokenDecidesAtMostOnce(names, s);
    RulingsCount(s.desk.decisions, g);
    Fewer(Deciders(s.desk.decisions, g), TokensOf(s.desk, g));
  }

  lemma {:induction false} Fewer(a: set<nat>, b: set<nat>)
    requires a <= b
    ensures |a| <= |b|
    decreases |a|
  {
    if a != {} {
      var x :| x in a;
      Fewer(a - {x}, b - {x});
    }
  }

  // ----- A gate opened over a number of channels -----

  function Left(p: Phase, g: nat): nat {
    if p.IssueTokens? && p.gate == g then p.left else 0
  }

  /** Gate `g` was opened by worker `w` for `n` channels: issued tokens and those still to come are at
      most `n`, and nobody else issues any. */
  ghost predicate Quota(s: State, g: nat, n: nat, w: nat, role: Standing) {
    && g in s.desk.gates && g < s.desk.nextId && s.desk.gates[g].role == role
    && w in s.workers && |TokensOf(s.desk, g)| + Left(s.workers[w], g) <= n
    && forall v <- s.workers :: v != w ==> !(s.workers[v].IssueTokens? && s.workers[v].gate == g)
  }

  lemma SameTokens(d: Desk, d': Desk, g: nat)
    requires forall t :: t in d.tokens ==> t in d'.tokens && d'.tokens[t].gate == d.tokens[t].gate
    requires forall t :: t in d'.tokens && t !in d.tokens ==> d'.tokens[t].gate != g
    ensures TokensOf(d', g) == TokensOf(d, g)
  {
  }

  /** What one tick of a worker means for gate `g`. */
  lemma QuotaTick(c: Core, d: Desk, p: Phase, choice: Choice, g: nat)
    requires g in d.gates && g < d.nextId && forall t <- d.tokens :: t < d.nextId
    ensures var m := TickWorker(c, d, p, choice);
      && g in m.desk.gates && g < m.desk.nextId && m.desk.gates[g].role == d.gates[g].role
      && |TokensOf(m.desk, g)| + Left(m.phase, g) <= |TokensOf(d, g)| + Left(p, g)
      && (m.phase.IssueTokens? && m.phase.gate == g ==> p.IssueTokens? && p.gate == g)
      && (!(p.IssueTokens? && p.gate == g) ==> TokensOf(m.desk, g) == TokensOf(d, g))
  {
    hide VisitStep, ClaimStep, Return, IdemFault, ReserveKey, CommitStep, FailStep, RetryStep, SetStatus;
    var m := TickWorker(c, d, p, choice);
    if p.IssueTokens? && p.left > 0 && p.gate in d.gates {
      if p.gate == g {
        assert TokensOf(m.desk, g) == TokensOf(d, g) + {d.nextId};
      } else {
        SameTokens(d, m.desk, g);
      }
    } else {
      QuietDesk(c, d, p, choice);
      SameTokens(d, m.desk, g);
    }
  }

  lemma QuietDesk(c: Core, d: Desk, p: Phase, choice: Choice)
    requires !(p.IssueTokens? && p.left > 0 && p.gate in d.gates)
    ensures var m := TickWorker(c, d, p, choice);
      && m.desk.tokens == d.tokens
      && (m.desk == d || (m.desk == d.(gates := m.desk.gates, nextId := d.nextId + 1)
                          && exists i, role :: m.desk == AddGate(d, i, role)))
      && (m.phase.IssueTokens? ==> m.phase.gate == d.nextId || m.phase == p)
  {
    hide Bump, Complete, ReserveKey, WriteStep, MayWrite, SetStatus, Recorded;
  }

  lemma QuotaNext(s: State, e: Event, g: nat, n: nat, w: nat, role: Standing)
    requires Inv(s) && Quota(s, g, n, w, role)
    ensures Quota(Next(s, e), g, n, w, role)
  {
    hide TickWorker, TokensOf, CoreOk, Exclusive, Left;
    if e.Tick? && e.w in s.workers {
      QuotaTick(s.core, s.desk, s.workers[e.w], e.choice, g);
    } else if e.Resolve? && e.r in s.resolvers {
      QuotaResolve(s.core, s.desk, s.resolvers[e.r], g);
    } else if e.Crash? && e.w == w {
      LeftGone(s.workers[w], g);
    }
  }

  lemma LeftGone(p: Phase, g: nat)
    ensures Left(Gone, g) == 0 <= Left(p, g)
  {
  }

  lemma QuotaResolve(c: Core, d: Desk, q: Resolution, g: nat)
    requires ResolutionFits(d, q) && g in d.gates
    ensures var m := TickResolver(c, d, q);
      && g in m.desk.gates && m.desk.nextId == d.nextId && m.desk.gates[g].role == d.gates[g].role
      && TokensOf(m.desk, g) == TokensOf(d, g)
  {
    hide TokensOf, MayDecide, Complete, WriteStep;
    SameTokens(d, TickResolver(c, d, q).desk, g);
  }

  lemma {:induction false} QuotaExec(s: State, events: seq<Event>, g: nat, n: nat, w: nat, role: Standing)
    requires Inv(s) && Quota(s, g, n, w, role)
    ensures Quota(Exec(s, events), g, n, w, role) && Inv(Exec(s, events))
    decreases |events|
  {
    hide Inv, Quota, Next;
    if events != [] {
      NextInv(s, events[0]);
      QuotaNext(s, events[0], g, n, w, role);
      QuotaExec(Next(s, events[0]), events[1..], g, n, w, role);
    }
  }

  /** The worker at a gate step opens a request for `n` channels. */
  function Opened(s: State, w: nat, n: nat, role: Standing): State
    requires w in s.workers
  {
    Next(s, Tick(w, Channels(n, role)))
  }

  lemma OpenedQuota(s: State, w: nat, i: nat, n: nat, role: Standing)
    requires Inv(s) && w in s.workers && s.workers[w] == OpenGate(i)
    ensures Inv(Opened(s, w, n, role)) && Quota(Opened(s, w, n, role), s.desk.nextId, n, w, role)
    ensures Opened(s, w, n, role)
         == State(s.core, AddGate(s.desk, i, role), s.workers[w := IssueTokens(s.desk.nextId, n)], s.resolvers)
  {
    hide Exclusive, Ordered, StepsFit, IdemFits, CountsFit;
    var g := s.desk.nextId;
    var t := Opened(s, w, n, role);
    NextInv(s, Tick(w, Channels(n, role)));
    assert TokensOf(t.desk, g) == {};
    forall v | v in t.workers && v != w
      ensures !(t.workers[v].IssueTokens? && t.workers[v].gate == g)
    {
      assert PhaseFits(s.core, s.desk, s.workers[v]);
    }
  }

  /** A gate opened over `n` channels can be decided twice, in some continuation, exactly if `n` is at
      least two and its role may decide at all. */
  lemma TwoRulingsIff(names: seq<StepName>, s: State, w: nat, i: nat, n: nat, role: Standing)
    requires Reachable(names, s) && w in s.workers && s.workers[w] == OpenGate(i)
    ensures (exists u :: Leads(Opened(s, w, n, role), u) && Rulings(u.desk.decisions, s.desk.nextId) >= 2)
       <==> n >= 2 && Deciding(role)
  {
    hide Leads, Reachable, Rulings, Opened, Inv;
    ReachableInv(names, s);
    var t, g := Opened(s, w, n, role), s.desk.nextId;
    if u :| Leads(t, u) && Rulings(u.desk.decisions, g) >= 2 {
      AtMostQuota(names, s, w, i, n, role, u);
    }
    if n >= 2 && Deciding(role) {
      var u := TwoRulings(s, w, i, n, role);
    }
  }

  lemma OpenedReachable(names: seq<StepName>, s: State, e: Event, u: State)
    requires Reachable(names, s) && Leads(Next(s, e), u)
    ensures Reachable(names, u)
  {
    hide Next, Exec;
    var events :| s == Exec(Init(names), events);
    assert Leads(Init(names), s);
    OneEvent(s, e);
    LeadsOn(Init(names), s, Next(s, e));
    LeadsOn(Init(names), Next(s, e), u);
  }

  lemma AtMostQuota(names: seq<StepName>, s: State, w: nat, i: nat, n: nat, role: Standing, u: State)
    requires Reachable(names, s) && w in s.workers && s.workers[w] == OpenGate(i)
    requires Leads(Opened(s, w, n, role), u)
    ensures Rulings(u.desk.decisions, s.desk.nextId) <= n
    ensures Rulings(u.desk.decisions, s.desk.nextId) > 0 ==> Deciding(role)
  {
    hide Reachable, Rulings, Exec, TickWorker, CoreOk, Exclusive, TokensOf;
    ReachableInv(names, s);
    var g := s.desk.nextId;
    OpenedQuota(s, w, i, n, role);
    OpenedReachable(names, s, Tick(w, Channels(n, role)), u);
    var events :| u == Exec(Opened(s, w, n, role), events);
    QuotaExec(Opened(s, w, n, role), events, g, n, w, role);
    RulingsWithinTokens(names, u, g);
    if Rulings(u.desk.decisions, g) > 0 {
      var k := SomeRuling(u.desk.decisions, g);
      assert MayDecide(u.desk.decisions[k].actor, u.desk.gates[g].role);
    }
  }

  lemma {:induction false} SomeRuling(decisions: seq<Decision>, g: nat) returns (k: nat)
    requires Rulings(decisions, g) > 0
    ensures k < |decisions| && decisions[k].gate == g
    decreases |decisions|
  {
    var n := |decisions| - 1;
    if decisions[n].gate == g {
      k := n;
    } else {
      k := SomeRuling(decisions[..n], g);
    }
  }

  // ----- Two rulings at once -----

  lemma TwoTokens(s: State, w: nat, g: nat, n: nat) returns (t: State)
    requires w in s.workers && s.workers[w] == IssueTokens(g, n) && n >= 2 && g in s.desk.gates
    ensures Leads(s, t) && t.core == s.core && t.resolvers == s.resolvers && t.desk.gates == s.desk.gates
    ensures var x, step := s.desk.nextId, s.desk.gates[g].step;
      t.desk == s.desk.(tokens := s.desk.tokens[x := Token(g, step, false)][x + 1 := Token(g, step, false)],
                        nextId := x + 2)
  {
    hide Leads;
    LeadsSelf(s);
    var a := Next(s, Tick(w, Proceed));
    LeadsNext(s, s, Tick(w, Proceed));
    t := Next(a, Tick(w, Proceed));
    LeadsNext(s, a, Tick(w, Proceed));
  }

  /** A resolver presents a fresh token, spends it and reads the pending gate. */
  lemma Reads(s: State, r: nat, t: nat, actor: Standing) returns (u: State)
    requires r !in s.resolvers && t in s.desk.tokens && !s.desk.tokens[t].used
    requires s.desk.tokens[t].gate in s.desk.gates && s.desk.gates[s.desk.tokens[t].gate].status == GatePending
    requires MayDecide(actor, s.desk.gates[s.desk.tokens[t].gate].role)
    ensures Leads(s, u)
    ensures u == State(s.core, s.desk.(tokens := s.desk.tokens[t := s.desk.tokens[t].(used := true)]), s.workers,
                       s.resolvers[r := Decide(t, true, actor, s.desk.gates[s.desk.tokens[t].gate])])
  {
    hide Leads, TickWorker;
    LeadsSelf(s);
    var a := Next(s, Present(r, t, true, actor));
    LeadsNext(s, s, Present(r, t, true, actor));
    var b := Next(a, Resolve(r));
    LeadsNext(s, a, Resolve(r));
    assert b.resolvers == s.resolvers[r := ReadGate(t, true, actor)];
    u := Next(b, Resolve(r));
    LeadsNext(s, b, Resolve(r));
  }

  lemma Saves(s: State, r: nat, t: nat, actor: Standing, seen: Gate) returns (u: State)
    requires r in s.resolvers && s.resolvers[r] == Decide(t, true, actor, seen) && t in s.desk.tokens
    ensures Leads(s, u)
    ensures u.desk == s.desk.(decisions := s.desk.decisions + [Decision(s.desk.tokens[t].gate, s.desk.tokens[t].step,
          true, actor, t)])
    ensures u.resolvers == s.resolvers[r := Flip(t, true, seen)]
  {
    hide Leads;
    OneEvent(s, Resolve(r));
    u := Next(s, Resolve(r));
  }

  lemma FreshResolvers(s: State) returns (a: nat, b: nat)
    ensures a !in s.resolvers && b !in s.resolvers && a != b
  {
    a := Above(s.resolvers.Keys);
    b := a + 1;
  }

  lemma RulingsSnoc(decisions: seq<Decision>, made: Decision, g: nat)
    ensures Rulings(decisions + [made], g) == Rulings(decisions, g) + if made.gate == g then 1 else 0
  {
    assert (decisions + [made])[..|decisions|] == decisions;
  }

  /** From any state in which a worker is about to open a gate over two channels or more: two submissions
      read the gate pending before either decides it. */
  lemma TwoRulings(s: State, w: nat, i: nat, n: nat, role: Standing) returns (u: State)
    requires Inv(s) && w in s.workers && s.workers[w] == OpenGate(i) && n >= 2 && Deciding(role)
    ensures Leads(Opened(s, w, n, role), u) && Rulings(u.desk.decisions, s.desk.nextId) >= 2
  {
    hide Leads, Rulings, Inv, TickWorker, TickResolver;
    var g := s.desk.nextId;
    OpenedQuota(s, w, i, n, role);
    var t := Opened(s, w, n, role);
    var s1 := TwoTokens(t, w, g, n);
    var a, b := FreshResolvers(s1);
    var x := g + 1;
    var s2 := Reads(s1, a, x, role);
    LeadsOn(t, s1, s2);
    var s3 := Reads(s2, b, x + 1, role);
    LeadsOn(t, s2, s3);
    var seen := s1.desk.gates[g];
    var s4 := Saves(s3, a, x, role, seen);
    LeadsOn(t, s3, s4);
    u := Saves(s4, b, x + 1, role, seen);
    LeadsOn(t, s4, u);
    var first := Decision(g, i, true, role, x);
    var second := Decision(g, i, true, role, x + 1);
    RulingsSnoc(s3.desk.decisions, first, g);
    RulingsSnoc(s4.desk.decisions, second, g);
  }
}
