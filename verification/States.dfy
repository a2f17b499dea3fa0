/** Statuses, transition tables, roles and record types shared by the engine and the protocol
    (src/cam/core/orchestrator/states.py, src/cam/security/rbac.py). */
module States {
  import opened Wrappers

  datatype RunStatus = Queued | Running | AwaitingApproval | Succeeded | Parked | Rejected | Cancelled

  datatype StepStatus = Pending | Running | Succeeded | Failed | Compensated | Skipped

  /** The run transition table. Succeeded, rejected and cancelled runs have no way out. */
  predicate LegalRun(from: RunStatus, to: RunStatus) {
    || (from == Queued && to == RunStatus.Running)
    || (from == RunStatus.Running
        && (to == RunStatus.Succeeded || to == AwaitingApproval || to == Parked || to == Cancelled))
    || (from == AwaitingApproval && (to == RunStatus.Running || to == Rejected || to == Cancelled))
    || (from == Parked && (to == RunStatus.Running || to == Cancelled))
  }

  /** The step transition table. Nothing leads to pending or skipped. */
  predicate LegalStep(from: StepStatus, to: StepStatus) {
    || (from == Pending && to == StepStatus.Running)
    || (from == StepStatus.Running && (to == StepStatus.Succeeded || to == Failed))
    || (from == Failed && (to == StepStatus.Running || to == Compensated))
    || (from == StepStatus.Succeeded && to == Compensated)
  }

  /** The statuses at which the engine's loop passes over a step. */
  predicate Finished(status: StepStatus) {
    status == StepStatus.Succeeded || status == Skipped || status == Compensated
  }

  /** A handler's output dictionary; the empty one doubles as the reservation placeholder. */
  type Output = map<string, string>

  const PLACEHOLDER: Output := map[]

  const MAX_ATTEMPTS := 5

  /** A step name, read as the engine reads it: `GATE:x` names the gate x, anything else a handler. */
  datatype StepName = Task(handler: string) | Approval(gate: string)

  predicate IsGate(name: StepName) {
    name.Approval?
  }

  datatype Step = Step(name: StepName, status: StepStatus, attempt: nat, output: Option<Output>)

  /** One pending step per declared name. */
  function FanOut(names: seq<StepName>): (steps: seq<Step>)
    ensures |steps| == |names|
  {
    seq(|names|, i requires 0 <= i < |names| => Step(names[i], Pending, 0, None))
  }

  predicate Distinct<T(==)>(names: seq<T>) {
    forall i, j :: 0 <= i < j < |names| ==> names[i] != names[j]
  }

  datatype GateStatus = GatePending | Approved | RejectedGate

  datatype Role = Attorney | Paralegal | IntakeCoordinator | Operations | AgentService | Admin

  /** Which roles the permission matrix grants gate.approve. */
  predicate GrantsGateApprove(role: Role) {
    role == Attorney || role == Admin
  }

  /** An actor or a gate requirement, by the role it names; None is an unknown name. */
  type Standing = Option<Role>

  /** Somebody can decide a gate that requires the role. */
  predicate Deciding(role: Standing) {
    role.Some? && GrantsGateApprove(role.value)
  }

  /** The actor's role is known, is exactly the required one, and carries gate.approve. */
  predicate MayDecide(actor: Standing, required: Standing) {
    actor.Some? && actor == required && GrantsGateApprove(actor.value)
  }
}
