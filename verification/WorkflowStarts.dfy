/** What starting a run stores and answers, and that a dedupe key stands for one run over every history
    (src/cam/core/orchestrator/triggers.py, store.py). */
module WorkflowStarts {
  import opened Wrappers
  import opened States
  import opened Workflow
  import opened WorkflowRuns
  import opened WorkflowDesk
  import opened WorkflowLimits

  /** A start under the key, where an empty one counts as none: an unregistered workflow changes nothing and
      has no answer; a stored key changes nothing and answers the run stored under it; otherwise run `r` is
      stored queued with one pending, unattempted step without output per declared name, in order, the key
      stands for `r`, and nothing else changes. */
  ghost predicate Starts(w: World, v: World, defs: Registry, workflow: string, r: RunId, key: string,
                         started: Option<RunId>)
  {
    if workflow !in defs then v == w && started == None
    else if key != "" && key in w.dedupe then v == w && started == Some(w.dedupe[key])
    else
      && started == Some(r)
      && v == w.(runs := w.runs[r := Run(workflow, Queued, None, None)], steps := v.steps, order := v.order,
                 dedupe := if key != "" then w.dedupe[key := r] else w.dedupe)
      && (if r in w.runs then v.order == w.order else v.order == w.order + [r])
      && v.steps.Keys == w.steps.Keys + {r}
      && (forall q :: q in w.steps && q != r ==> v.steps[q] == w.steps[q])
      && |v.steps[r]| == |defs[workflow].steps|
      && forall i :: 0 <= i < |v.steps[r]| ==> v.steps[r][i] == Step(defs[workflow].steps[i], Pending, 0, None)
  }

  /** The description holds of exactly one answer and one outcome, those of a start. */
  lemma StartIff(w: World, v: World, defs: Registry, workflow: string, r: RunId, key: string, started: Option<RunId>)
    ensures Starts(w, v, defs, workflow, r, key, started) <==>
      match StartRun(w, defs, workflow, r, key)
      case Started(made, run) => v == made && started == Some(run)
      case UnknownWorkflow => v == w && started == None
  {
    if workflow in defs && !(key != "" && key in w.dedupe) {
      var made := StartRun(w, defs, workflow, r, key).world;
      if Starts(w, v, defs, workflow, r, key, started) {
        assert v.steps[r] == made.steps[r];
        assert v.steps == made.steps;
      }
    }
  }

  // ----- What a key stands for -----

  /** Every key stands for a stored run. */
  ghost predicate KeysStored(w: World) {
    forall key :: key in w.dedupe ==> w.dedupe[key] in w.runs
  }

  lemma ExecuteKeys(w: World, defs: Registry, q: RunId, locked: bool, oracle: seq<Outcome>, now: nat)
    requires Present(w, q) ==> |oracle| == |w.steps[q]|
    ensures Execute(w, defs, q, locked, oracle, now).world.dedupe == w.dedupe
  {
    hide Walk;
    if Present(w, q) && !locked && w.runs[q].workflow in defs {
      WalkOnlyRun(Promote(w, q), q, defs[w.runs[q].workflow], 0, oracle, now, []);
    }
  }

  lemma {:induction false} SweepKeys(w: World, defs: Registry, listed: seq<RunId>, oracle: Oracle, now: nat)
    ensures SweepRuns(w, defs, listed, oracle, now).dedupe == w.dedupe
    decreases |listed|
  {
    hide Execute;
    if listed != [] {
      var q := listed[0];
      if q in w.runs && w.runs[q].status != AwaitingApproval {
        var answers := AnswersFor(oracle, w, q);
        ExecuteKeys(w, defs, q, false, answers, now);
        SweepKeys(Execute(w, defs, q, false, answers, now).world, defs, listed[1..], oracle, now);
      } else {
        SweepKeys(w, defs, listed[1..], oracle, now);
      }
    }
  }

  lemma ResolveKeys(w: World, p: Payload, approve: bool, actor: Standing, channel: Channel, now: nat)
    ensures Resolve(w, p, approve, actor, channel, now).world.dedupe == w.dedupe
  {
    hide Resolve;
    ResolveIs(w, p, approve, actor, channel, now);
  }

  /** One operation keeps what each stored key stands for. */
  lemma ApplyKeys(w: World, defs: Registry, op: Op)
    ensures var v := Apply(w, defs, op);
      && w.runs.Keys <= v.runs.Keys && w.dedupe.Keys <= v.dedupe.Keys
      && (forall key :: key in w.dedupe ==> v.dedupe[key] == w.dedupe[key])
      && (KeysStored(w) ==> KeysStored(v))
      && (!op.OpStart? ==> v.runs.Keys == w.runs.Keys)
  {
    hide Execute, Resolve, SweepRuns, FanOut;
    match op
    case OpStart(workflow, r, dedupe) =>
    case OpExecute(q, locked, oracle, now) =>
      ExecuteKeys(w, defs, q, locked, AnswersFor(oracle, w, q), now);
      ExecuteRuns(w, defs, q, locked, AnswersFor(oracle, w, q), now);
    case OpResolve(p, approve, actor, channel, now) =>
      ResolveKeys(w, p, approve, actor, channel, now);
      ResolveRuns(w, p, approve, actor, channel, now);
    case OpSweep(oracle, now) =>
      SweepKeys(w, defs, Listed(w, w.order), oracle, now);
      SweepRunsKeys(w, defs, Listed(w, w.order), oracle, now);
  }

  lemma {:induction false} HistoryKeys(w: World, defs: Registry, ops: seq<Op>)
    ensures var v := History(w, defs, ops);
      && w.runs.Keys <= v.runs.Keys && w.dedupe.Keys <= v.dedupe.Keys
      && (forall key :: key in w.dedupe ==> v.dedupe[key] == w.dedupe[key])
      && (KeysStored(w) ==> KeysStored(v))
    decreases |ops|
  {
    hide Apply, KeysStored;
    if ops != [] {
      ApplyKeys(w, defs, ops[0]);
      HistoryKeys(Apply(w, defs, ops[0]), defs, ops[1..]);
    }
  }

  /** Once a start stored run `r` under a non-empty key, that key answers `r` and changes nothing, whatever
      happened in between and whichever registered workflow and run id a later start names. */
  lemma KeyAnswers(w: World, defs: Registry, workflow: string, r: RunId, key: string, ops: seq<Op>,
                   later: string, q: RunId)
    requires workflow in defs && later in defs && key != "" && key !in w.dedupe && r !in w.runs
    ensures var v := History(Apply(w, defs, OpStart(workflow, r, key)), defs, ops);
      r in v.runs && Starts(v, v, defs, later, q, key, Some(r)) && Apply(v, defs, OpStart(later, q, key)) == v
  {
    hide History, FanOut;
    HistoryKeys(Apply(w, defs, OpStart(workflow, r, key)), defs, ops);
  }

  /** The operation is a start under `key` that stores a new run. */
  ghost predicate Adds(w: World, defs: Registry, op: Op, key: string) {
    op.OpStart? && op.dedupe == key && op.run !in w.runs && op.run in Apply(w, defs, op).runs
  }

  lemma {:induction false} HistorySplit(w: World, defs: Registry, ops: seq<Op>, n: nat)
    requires n <= |ops|
    ensures History(w, defs, ops) == History(History(w, defs, ops[..n]), defs, ops[n..])
    decreases |ops|
  {
    hide Apply;
    if n > 0 {
      HistorySplit(Apply(w, defs, ops[0]), defs, ops[1..], n - 1);
      assert ops[1..][..n - 1] == ops[..n][1..] && ops[1..][n - 1..] == ops[n..];
    } else {
      assert ops[..0] == [] && ops[0..] == ops;
    }
  }

  lemma AddsKey(w: World, defs: Registry, op: Op, key: string)
    requires Adds(w, defs, op, key) && key != ""
    ensures key !in w.dedupe && key in Apply(w, defs, op).dedupe
  {
    hide FanOut;
  }

  /** In every history a non-empty key is given to at most one run. */
  lemma KeyAddsOnce(w: World, defs: Registry, ops: seq<Op>, key: string, i: nat, j: nat)
    requires i < j < |ops| && key != ""
    requires Adds(History(w, defs, ops[..i]), defs, ops[i], key)
    ensures !Adds(History(w, defs, ops[..j]), defs, ops[j], key)
  {
    hide Adds, Apply;
    var mid := History(w, defs, ops[..i]);
    AddsKey(mid, defs, ops[i], key);
    HistorySplit(w, defs, ops[..j], i);
    assert ops[..j][..i] == ops[..i] && ops[..j][i..] == ops[i..j];
    assert ops[i..j][0] == ops[i];
    HistoryKeys(Apply(mid, defs, ops[i]), defs, ops[i..j][1..]);
    if Adds(History(w, defs, ops[..j]), defs, ops[j], key) {
      AddsKey(History(w, defs, ops[..j]), defs, ops[j], key);
    }
  }

  /** A start is the only operation that adds a run, and no history takes one away. */
  lemma RunsOnlyStarted(w: World, defs: Registry, op: Op, r: RunId)
    requires r !in w.runs && r in Apply(w, defs, op).runs
    ensures op.OpStart? && op.run == r && op.workflow in defs && (op.dedupe == "" || op.dedupe !in w.dedupe)
  {
    hide FanOut, Execute, Resolve, Sweep;
    ApplyKeys(w, defs, op);
  }
}
