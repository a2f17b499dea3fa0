/** Continuations of a protocol state. */
module ProtocolRuns {
  import opened Protocol
  import opened ProtocolSafety

  /** Some sequence of events takes `s` to `t`. */
  ghost predicate Leads(s: State, t: State) {
    exists events :: t == Exec(s, events)
  }

  lemma LeadsSelf(s: State)
    ensures Leads(s, s)
  {
    assert s == Exec(s, []);
  }

  lemma {:induction false} ExecConcat(s: State, a: seq<Event>, b: seq<Event>)
    ensures Exec(s, a + b) == Exec(Exec(s, a), b)
    decreases |a|
  {
    hide Next;
    if a == [] {
      assert a + b == b;
    } else {
      assert (a + b)[1..] == a[1..] + b;
      ExecConcat(Next(s, a[0]), a[1..], b);
    }
  }

  lemma LeadsOn(s: State, t: State, u: State)
    requires Leads(s, t) && Leads(t, u)
    ensures Leads(s, u)
  {
    hide Exec;
    var a :| t == Exec(s, a);
    var b :| u == Exec(t, b);
    ExecConcat(s, a, b);
    assert u == Exec(s, a + b);
  }

  lemma LeadsNext(s: State, t: State, e: Event)
    requires Leads(s, t)
    ensures Leads(s, Next(t, e))
  {
    hide Leads, Next;
    assert Leads(t, Next(t, e)) by {
      OneEvent(t, e);
    }
    LeadsOn(s, t, Next(t, e));
  }

  lemma OneEvent(t: State, e: Event)
    ensures Leads(t, Next(t, e))
  {
    hide Next;
    assert [e][1..] == [];
    assert Exec(Next(t, e), []) == Next(t, e);
    assert Next(t, e) == Exec(t, [e]);
  }

  /** What every event keeps holds in every continuation. */
  lemma LeadsInv(s: State, t: State)
    requires Inv(s) && Leads(s, t)
    ensures Inv(t)
  {
    hide Inv, Exec;
    var events :| t == Exec(s, events);
    ExecInv(s, events);
  }
}
