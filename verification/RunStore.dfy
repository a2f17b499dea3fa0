/** The in-memory stores, updated in place (src/cam/core/orchestrator/store.py, idempotency.py). */
module RunStore {
  import opened Wrappers
  import opened States
  import opened Workflow

  datatype StoreError = KeyError | IllegalTransition

  /** The run with a new status, and with a current step or an error where one is given. */
  function Moved(run: Run, to: RunStatus, current: Option<StepName>, error: Option<StepError>): Run {
    run.(status := to, current := if current.Some? then current else run.current,
         error := if error.Some? then error else run.error)
  }

  class InMemoryRunStore {
    var runs: map<RunId, Run>
    var order: seq<RunId>
    var steps: map<RunId, seq<Step>>
    var gates: map<nat, GateRequest>
    var tokens: map<nat, ApprovalToken>
    var decisions: seq<ApprovalDecision>
    var dedupe: map<string, RunId>
    var nextId: nat

    constructor ()
      ensures View() == EMPTY
    {
      runs, order, steps := map[], [], map[];
      gates, tokens, decisions, nextId := map[], map[], [], 0;
      dedupe := map[];
    }

    /** The stored part of the world; outputs, calls and compensations live elsewhere. */
    ghost function View(): World
      reads this
    {
      World(runs, order, steps, dedupe, Desk(gates, tokens, decisions, nextId), map[], [], [])
    }

    method FreshId() returns (id: nat)
      modifies this`nextId
      ensures id == old(nextId) && nextId == id + 1
    {
      id := nextId;
      nextId := nextId + 1;
    }

    // ----- Runs -----

    /** `key` is empty when the run has no dedupe key. */
    method CreateRun(r: RunId, run: Run, fanned: seq<Step>, key: string) returns (id: RunId)
      modifies this
      ensures old(key != "" && key in dedupe) ==> View() == old(View()) && id == old(dedupe)[key]
      ensures !old(key != "" && key in dedupe) ==>
        && id == r
        && View() == old(View()).(runs := old(runs)[r := run], steps := old(steps)[r := fanned],
                                  order := if r in old(runs) then old(order) else old(order) + [r],
                                  dedupe := if key != "" then old(dedupe)[key := r] else old(dedupe))
    {
      if key != "" && key in dedupe {
        return dedupe[key];
      }
      if r !in runs {
        order := order + [r];
      }
      runs := runs[r := run];
      steps := steps[r := fanned];
      if key != "" {
        dedupe := dedupe[key := r];
      }
      id := r;
    }

    method GetRun(r: RunId) returns (run: Option<Run>)
      ensures run == if r in runs then Some(runs[r]) else None
    {
      run := if r in runs then Some(runs[r]) else None;
    }

    method UpdateRunStatus(r: RunId, to: RunStatus, current: Option<StepName>, error: Option<StepError>)
      returns (res: Result<(), StoreError>)
      modifies this`runs
      ensures res == if r !in old(runs) then Err(KeyError)
                     else if LegalRun(old(runs)[r].status, to) then Ok(()) else Err(IllegalTransition)
      ensures runs == if res.Ok? then old(runs)[r := Moved(old(runs)[r], to, current, error)] else old(runs)
    {
      if r !in runs {
        return Err(KeyError);
      }
      if !LegalRun(runs[r].status, to) {
        return Err(IllegalTransition);
      }
      var step := if current.Some? then current else runs[r].current;
      var kept := if error.Some? then error else runs[r].error;
      runs := runs[r := runs[r].(status := to, current := step, error := kept)];
      res := Ok(());
    }

    method SetCurrentStep(r: RunId, name: StepName) returns (res: Result<(), StoreError>)
      modifies this`runs
      ensures res == if r in old(runs) then Ok(()) else Err(KeyError)
      ensures runs == if r in old(runs) then old(runs)[r := old(runs)[r].(current := Some(name))] else old(runs)
    {
      if r !in runs {
        return Err(KeyError);
      }
      runs := runs[r := runs[r].(current := Some(name))];
      res := Ok(());
    }

    /** Mark a gate step succeeded, past the transition guard. */
    method AdvanceGateStep(r: RunId, name: StepName)
      modifies this`steps
      ensures View() == Workflow.AdvanceGateStep(old(View()), r, name)
    {
      if r !in steps {
        return;
      }
      var mine := steps[r];
      for i := 0 to |mine|
        invariant mine == steps[r] && steps == old(steps)
        invariant forall j :: 0 <= j < i ==> mine[j].name != name
      {
        if mine[i].name == name {
          steps := steps[r := mine[i := mine[i].(status := StepStatus.Succeeded)]];
          return;
        }
      }
    }

    /** The queued and running runs, in the order they were stored. */
    method FindRecoverableRuns() returns (found: seq<RunId>)
      ensures found == Listed(View(), order)
    {
      found := [];
      for i := 0 to |order|
        invariant Listed(View(), order) == found + Listed(View(), order[i..])
      {
        var r := order[i];
        assert order[i..][1..] == order[i + 1..];
        if r in runs && (runs[r].status == Queued || runs[r].status == RunStatus.Running) {
          assert found + ([r] + Listed(View(), order[i + 1..])) == (found + [r]) + Listed(View(), order[i + 1..]);
          found := found + [r];
        }
      }
    }

    // ----- Steps -----

    method GetSteps(r: RunId) returns (snap: seq<Step>)
      ensures snap == if r in steps then steps[r] else []
    {
      snap := if r in steps then steps[r] else [];
    }

    /** Overwrite the stored step of that name, if the transition table allows the new status. */
    method UpdateStep(r: RunId, step: Step) returns (res: Result<(), StoreError>)
      modifies this`steps
      ensures var i := if r in old(steps) then IndexOf(old(steps)[r], step.name) else 0;
        if r !in old(steps) || i == |old(steps)[r]| then res == Err(KeyError) && steps == old(steps)
        else if LegalStep(old(steps)[r][i].status, step.status)
        then res == Ok(()) && steps == old(steps)[r := old(steps)[r][i := step]]
        else res == Err(IllegalTransition) && steps == old(steps)
    {
      if r !in steps {
        return Err(KeyError);
      }
      var mine := steps[r];
      for i := 0 to |mine|
        invariant mine == steps[r] && steps == old(steps)
        invariant forall j :: 0 <= j < i ==> mine[j].name != step.name
      {
        if mine[i].name == step.name {
          if !LegalStep(mine[i].status, step.status) {
            return Err(IllegalTransition);
          }
          steps := steps[r := mine[i := step]];
          return Ok(());
        }
      }
      res := Err(KeyError);
    }

    // ----- Gates, tokens, decisions -----

    method PutGate(id: nat, gate: GateRequest)
      modifies this`gates
      ensures gates == old(gates)[id := gate]
    {
      gates := gates[id := gate];
    }

    method SaveToken(id: nat, token: ApprovalToken)
      modifies this`tokens
      ensures tokens == old(tokens)[id := token]
    {
      tokens := tokens[id := token];
    }

    /** Spend a token: true for the first caller only. */
    method MarkTokenUsed(id: nat) returns (first: bool)
      modifies this`tokens
      ensures first == (id in old(tokens) && !old(tokens)[id].used)
      ensures tokens == if first then old(tokens)[id := old(tokens)[id].(used := true)] else old(tokens)
    {
      if id !in tokens || tokens[id].used {
        return false;
      }
      tokens := tokens[id := tokens[id].(used := true)];
      first := true;
    }

    method SaveApprovalDecision(made: ApprovalDecision)
      modifies this`decisions
      ensures decisions == old(decisions) + [made]
    {
      decisions := decisions + [made];
    }
  }

  class InMemoryIdempotencyStore {
    var outputs: map<Call, Output>

    constructor ()
      ensures outputs == map[]
    {
      outputs := map[];
    }

    /** Claim the key with a placeholder: true for the first caller only. */
    method Reserve(key: Call) returns (first: bool)
      modifies this
      ensures first == (key !in old(outputs))
      ensures outputs == if first then old(outputs)[key := PLACEHOLDER] else old(outputs)
    {
      if key in outputs {
        return false;
      }
      outputs := outputs[key := PLACEHOLDER];
      first := true;
    }

    method Record(key: Call, out: Output)
      modifies this
      ensures outputs == old(outputs)[key := out]
    {
      outputs := outputs[key := out];
    }

    /** The recorded output; a placeholder, and so also a recorded empty output, reads as nothing. */
    method Lookup(key: Call) returns (out: Option<Output>)
      ensures out == if key in outputs && outputs[key] != PLACEHOLDER then Some(outputs[key]) else None
    {
      if key !in outputs {
        return None;
      }
      out := if outputs[key] != PLACEHOLDER then Some(outputs[key]) else None;
    }
  }
}
