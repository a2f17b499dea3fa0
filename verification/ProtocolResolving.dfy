/** One resolve call of the protocol, moving alone to its end. */
module ProtocolResolving {
  import opened Wrappers
  import opened States
  import opened Protocol
  import opened ProtocolRuns

  function Rounds(c: Core, d: Desk, q: Resolution, n: nat): Ruling
    decreases n
  {
    if n == 0 then Ruled(c, d, q)
    else
      var m := TickResolver(c, d, q);
      Rounds(m.core, m.desk, m.next, n - 1)
  }

  function Resolves(v: nat, n: nat): seq<Event> {
    if n == 0 then [] else [Resolve(v)] + Resolves(v, n - 1)
  }

  lemma {:induction false} RoundsAreExec(s: State, v: nat, n: nat)
    requires v in s.resolvers
    ensures var m := Rounds(s.core, s.desk, s.resolvers[v], n);
      Exec(s, Resolves(v, n)) == State(m.core, m.desk, s.workers, s.resolvers[v := m.next])
    decreases n
  {
    hide TickResolver;
    if n == 0 {
      assert s.resolvers[v := s.resolvers[v]] == s.resolvers;
    } else {
      var t := MoveResolver(s, v);
      assert Resolves(v, n)[1..] == Resolves(v, n - 1);
      RoundsAreExec(t, v, n - 1);
    }
  }

  function SpentDesk(d: Desk, t: nat): Desk
    requires t in d.tokens
  {
    d.(tokens := d.tokens[t := d.tokens[t].(used := true)])
  }

  /** The desk after a ruling by token `t`. */
  function RuledDesk(d: Desk, t: nat, approve: bool, actor: Standing): Desk
    requires t in d.tokens && d.tokens[t].gate in d.gates
  {
    var token := d.tokens[t];
    var made := Decision(token.gate, token.step, approve, actor, t);
    var status := if approve then Approved else RejectedGate;
    SpentDesk(d, t).(decisions := d.decisions + [made],
                     gates := d.gates[token.gate := d.gates[token.gate].(status := status)])
  }

  /** The stored run after a ruling on step `i`. */
  function RuledCore(c: Core, i: nat, approve: bool): Core
    requires i < |c.steps|
  {
    var to := if approve then RunStatus.Running else Rejected;
    if !LegalRun(c.status, to) then c
    else if !approve then c.(status := to)
    else Complete(WriteStep(c.(status := to), i, c.steps[i].(status := StepStatus.Succeeded)), i)
  }

  predicate Admits(d: Desk, t: nat, actor: Standing) {
    t in d.tokens && d.tokens[t].gate in d.gates
    && d.gates[d.tokens[t].gate].status == GatePending && MayDecide(actor, d.gates[d.tokens[t].gate].role)
  }

  lemma RoundStep(c: Core, d: Desk, q: Resolution, n: nat)
    requires n > 0
    ensures var m := TickResolver(c, d, q);
      Rounds(c, d, q, n) == Rounds(m.core, m.desk, m.next, n - 1)
  {
    hide TickResolver;
  }

  lemma {:induction false} ClosedRounds(c: Core, d: Desk, n: nat)
    ensures Rounds(c, d, Closed, n) == Ruled(c, d, Closed)
    decreases n
  {
    if n > 0 {
      ClosedRounds(c, d, n - 1);
    }
  }

  /** Six moves take a resolver with an unspent token to its end. */
  lemma ResolveRounds(c: Core, d: Desk, t: nat, approve: bool, actor: Standing)
    requires t in d.tokens && !d.tokens[t].used && d.tokens[t].gate in d.gates && d.tokens[t].step < |c.steps|
    ensures Rounds(c, d, Spend(t, approve, actor), 6) ==
      if Admits(d, t, actor)
      then Ruled(RuledCore(c, d.tokens[t].step, approve), RuledDesk(d, t, approve, actor), Closed)
      else Ruled(c, SpentDesk(d, t), Closed)
  {
    hide Rounds, MayDecide;
    var d1 := SpentDesk(d, t);
    RoundStep(c, d, Spend(t, approve, actor), 6);
    RoundStep(c, d1, ReadGate(t, approve, actor), 5);
    if !Admits(d, t, actor) {
      ClosedRounds(c, d1, 4);
    } else {
      var seen := d.gates[d.tokens[t].gate];
      RoundStep(c, d1, Decide(t, approve, actor, seen), 4);
      var d2 := d1.(decisions := d.decisions + [Decision(d.tokens[t].gate, d.tokens[t].step, approve, actor, t)]);
      RoundStep(c, d2, Flip(t, approve, seen), 3);
      var d3 := RuledDesk(d, t, approve, actor);
      RuledRounds(c, d3, t, approve);
    }
  }

  lemma RuledRounds(c: Core, d: Desk, t: nat, approve: bool)
    requires t in d.tokens && d.tokens[t].step < |c.steps|
    ensures Rounds(c, d, Move(t, approve), 2) == Ruled(RuledCore(c, d.tokens[t].step, approve), d, Closed)
  {
    hide Rounds;
    RoundStep(c, d, Move(t, approve), 2);
    var to := if approve then RunStatus.Running else Rejected;
    if LegalRun(c.status, to) && approve {
      RoundStep(c.(status := to), d, Advance(t), 1);
      ClosedRounds(RuledCore(c, d.tokens[t].step, approve), d, 0);
    } else {
      ClosedRounds(RuledCore(c, d.tokens[t].step, approve), d, 1);
    }
  }

  /** A new resolver presents an unspent token and moves to its end. */
  lemma ResolveCall(s: State, t: nat, approve: bool, actor: Standing) returns (u: State)
    requires t in s.desk.tokens && !s.desk.tokens[t].used
    requires s.desk.tokens[t].gate in s.desk.gates && s.desk.tokens[t].step < |s.core.steps|
    ensures Leads(s, u) && u.workers == s.workers
    ensures if Admits(s.desk, t, actor)
      then u.core == RuledCore(s.core, s.desk.tokens[t].step, approve) && u.desk == RuledDesk(s.desk, t, approve, actor)
      else u.core == s.core && u.desk == SpentDesk(s.desk, t)
    ensures forall r <- u.resolvers ::
      (r in s.resolvers && u.resolvers[r] == s.resolvers[r]) || u.resolvers[r] == Closed
  {
    hide Exec, Leads, Rounds, TickResolver, TickWorker, RuledCore, RuledDesk, Admits;
    var v := Above(s.resolvers.Keys);
    var present := Present(v, t, approve, actor);
    var s1 := Next(s, present);
    OneEvent(s, present);
    ResolveRounds(s.core, s.desk, t, approve, actor);
    RoundsAreExec(s1, v, 6);
    u := Exec(s1, Resolves(v, 6));
    LeadsBy(s1, Resolves(v, 6));
    LeadsOn(s, s1, u);
  }

  lemma LeadsBy(s: State, events: seq<Event>)
    ensures Leads(s, Exec(s, events))
  {
    hide Exec;
  }
}
