/** The approval state machine of backend/src/services/workflowService.ts.

    The four tables it touches are one `Tables` value; `Submit`, `Approve`,
    `Reject` and `WriteStatus` say what each service call does to them, and
    `WorkflowStore` performs the same calls by updating its fields in place. */
module Workflow {
  import opened Common

  /** A step as stored in a workflow's JSON step list. Steps created through
      createWorkflow's declared type carry no id, so the id is optional. */
  datatype Step = Step(id: Option<string>, name: string, order: int, approverRole: string, isRequired: bool, canReject: bool)

  /** A row of the workflows table; its step column may be null. */
  datatype WorkflowRow = WorkflowRow(id: nat, name: string, entityType: string, steps: Option<seq<Step>>, isActive: bool)

  /** A workflow as getWorkflowForEntity returns it, a null step list read as empty. */
  datatype WorkflowDef = WorkflowDef(id: nat, name: string, entityType: string, steps: seq<Step>, isActive: bool)

  datatype Status = Pending | Approved | Rejected

  /** A row of workflow_validations (timestamps left out). */
  datatype Validation = Validation(
    id: nat, entityId: string, entityType: string, workflowId: nat,
    currentStep: Option<string>, status: Status, submittedBy: string,
    rejectionReason: Option<string>)

  /** A row of the append-only workflow_approvals audit table. */
  datatype Approval = Approval(validationId: nat, stepId: string, approvedBy: string, comments: Option<string>)

  /** What submitForApproval returns: the literal 'approved' or the new validation's id. */
  datatype Submission = AutoApproved | Submitted(validationId: nat)

  /** What approveStep returns: `{status: 'pending', nextStep}` or `{status: 'approved'}`. */
  datatype ApproveOutcome = StillPending(nextStep: Option<string>) | Completed

  datatype WorkflowError =
    | ValidationNotFound        // 'Validation non trouvée'
    | WorkflowNotFound          // 'Workflow non trouvé'
    | StepsMissing              // the stored step list is null: findIndex on null throws
    | StepNotFound              // 'Étape non trouvée'
    | UnsupportedEntityType(entityType: string)
    | ValidationMissing         // rejectStep re-reads no row and dereferences it

  /** The message the controller passes on with a 500. */
  function ErrorMessage(e: WorkflowError): string {
    match e
    case ValidationNotFound => "Validation non trouvée"
    case WorkflowNotFound => "Workflow non trouvé"
    case StepsMissing => "Cannot read properties of null (reading 'findIndex')"
    case StepNotFound => "Étape non trouvée"
    case UnsupportedEntityType(t) => "Type d'entité non supporté: " + t
    case ValidationMissing => "Cannot read properties of undefined (reading 'entity_id')"
  }

  /** The tables the service reads and writes. Workflows and validations are
      addressed by position (ids are assigned in insertion order and rows are
      never deleted); `entityStatus` maps (table, entity id) to the status
      column of production orders, quotes and quality controls. */
  datatype Tables = Tables(
    workflows: seq<WorkflowRow>,
    validations: seq<Validation>,
    approvals: seq<Approval>,
    entityStatus: map<(string, string), string>)

  // ---------------------------------------------------------------- definitions

  function AddWorkflow(t: Tables, name: string, entityType: string, steps: seq<Step>): Tables {
    t.(workflows := t.workflows + [WorkflowRow(|t.workflows|, name, entityType, Some(steps), true)])
  }

  predicate Selectable(w: WorkflowRow, entityType: string) {
    w.entityType == entityType && w.isActive
  }

  /** Position of the most recently created active workflow for the type
      (`ORDER BY created_at DESC LIMIT 1`). */
  function LatestActive(ws: seq<WorkflowRow>, entityType: string): (r: Option<nat>)
    ensures r.Some? ==> r.value < |ws| && Selectable(ws[r.value], entityType)
    ensures r.Some? ==> forall j :: r.value < j < |ws| ==> !Selectable(ws[j], entityType)
    ensures r.None? ==> forall j :: 0 <= j < |ws| ==> !Selectable(ws[j], entityType)
  {
    if ws == [] then None
    else if Selectable(ws[|ws| - 1], entityType) then Some(|ws| - 1)
    else LatestActive(ws[..|ws| - 1], entityType)
  }

  function View(w: WorkflowRow): WorkflowDef {
    WorkflowDef(w.id, w.name, w.entityType, w.steps.GetOr([]), w.isActive)
  }

  /** getWorkflowForEntity. */
  function WorkflowForEntity(ws: seq<WorkflowRow>, entityType: string): (r: Option<WorkflowDef>)
    ensures r.None? <==> forall j :: 0 <= j < |ws| ==> !Selectable(ws[j], entityType)
    ensures r.Some? ==> r.value.entityType == entityType && r.value.isActive
  {
    match LatestActive(ws, entityType)
    case None => None
    case Some(i) => Some(View(ws[i]))
  }

  /** submitForApproval. */
  function Submit(t: Tables, entityId: string, entityType: string, submittedBy: string): (r: (Tables, Submission))
    ensures r.0.workflows == t.workflows && r.0.approvals == t.approvals && r.0.entityStatus == t.entityStatus
    ensures r.1.AutoApproved? ==> r.0 == t
    ensures r.1.Submitted? ==>
      && r.1.validationId == |t.validations|
      && |r.0.validations| == |t.validations| + 1
      && r.0.validations[..|t.validations|] == t.validations
      && r.0.validations[|t.validations|].status == Pending
  {
    match WorkflowForEntity(t.workflows, entityType)
    case None => (t, AutoApproved)
    case Some(w) =>
      if w.steps == [] then (t, AutoApproved)
      else
        var id := |t.validations|;
        var v := Validation(id, entityId, entityType, w.id, w.steps[0].id, Pending, submittedBy, None);
        (t.(validations := t.validations + [v]), Submitted(id))
  }

  /** The position of the first step whose id is the given one, or none. */
  function StepIndex(steps: seq<Step>, stepId: string): (r: Option<nat>)
    ensures r.Some? ==> r.value < |steps| && steps[r.value].id == Some(stepId)
    ensures r.Some? ==> forall j :: 0 <= j < r.value ==> steps[j].id != Some(stepId)
    ensures r.None? ==> forall j :: 0 <= j < |steps| ==> steps[j].id != Some(stepId)
  {
    if steps == [] then None
    else if steps[0].id == Some(stepId) then Some(0)
    else match StepIndex(steps[1..], stepId)
      case None => None
      case Some(i) => Some(i + 1)
  }

  /** The table that holds the status of an entity type. */
  function StatusTable(entityType: string): Option<string> {
    if entityType == "production_order" then Some("production_orders")
    else if entityType == "quote" then Some("quotes")
    else if entityType == "quality_control" then Some("quality_controls")
    else None
  }

  /** updateEntityStatus: sets the entity's status when its row exists (an
      UPDATE matching no row changes nothing); an unmapped type fails. */
  function WriteStatus(m: map<(string, string), string>, entityId: string, entityType: string, status: string)
    : (r: Result<map<(string, string), string>, WorkflowError>)
    ensures r.Ok? <==> StatusTable(entityType).Some?
    ensures r.Ok? ==> r.value.Keys == m.Keys
    ensures r.Ok? ==> forall k :: k in m && k != (StatusTable(entityType).value, entityId) ==> r.value[k] == m[k]
    ensures r.Ok? && (StatusTable(entityType).value, entityId) in m ==> r.value[(StatusTable(entityType).value, entityId)] == status
  {
    match StatusTable(entityType)
    case None => Err(UnsupportedEntityType(entityType))
    case Some(table) => Ok(if (table, entityId) in m then m[(table, entityId) := status] else m)
  }

  /** approveStep. The audit row and the validation update are written before
      the entity status, so a failing status write leaves them in place. */
  function Approve(t: Tables, vid: nat, stepId: string, approvedBy: string, comments: Option<string>)
    : (r: (Tables, Result<ApproveOutcome, WorkflowError>))
    ensures r.0.workflows == t.workflows && |r.0.validations| == |t.validations|
    ensures r.1.Err? && !r.1.error.UnsupportedEntityType? ==> r.0 == t
    ensures r.1.Ok? || r.1.error.UnsupportedEntityType? ==>
      r.0.approvals == t.approvals + [Approval(vid, stepId, approvedBy, comments)]
  {
    if vid >= |t.validations| then (t, Err(ValidationNotFound))
    else
      var v := t.validations[vid];
      if v.workflowId >= |t.workflows| then (t, Err(WorkflowNotFound))
      else match t.workflows[v.workflowId].steps
        case None => (t, Err(StepsMissing))
        case Some(steps) =>
          match StepIndex(steps, stepId)
          case None => (t, Err(StepNotFound))
          case Some(i) =>
            var audited := t.(approvals := t.approvals + [Approval(vid, stepId, approvedBy, comments)]);
            if i < |steps| - 1 then
              (audited.(validations := t.validations[vid := v.(currentStep := steps[i + 1].id)]),
               Ok(StillPending(steps[i + 1].id)))
            else
              var done := audited.(validations := t.validations[vid := v.(status := Approved)]);
              match WriteStatus(t.entityStatus, v.entityId, v.entityType, "approved")
              case Ok(m) => (done.(entityStatus := m), Ok(Completed))
              case Err(e) => (done, Err(e))
  }

  /** rejectStep. `stepId` and `rejectedBy` are accepted and never used. */
  function Reject(t: Tables, vid: nat, stepId: string, rejectedBy: string, reason: string)
    : (r: (Tables, Option<WorkflowError>))
    ensures r.0.workflows == t.workflows && r.0.approvals == t.approvals && |r.0.validations| == |t.validations|
    ensures r.1.Some? ==> r.0.entityStatus == t.entityStatus
  {
    if vid >= |t.validations| then (t, Some(ValidationMissing))
    else
      var v := t.validations[vid].(status := Rejected, rejectionReason := Some(reason));
      var updated := t.(validations := t.validations[vid := v]);
      match WriteStatus(t.entityStatus, v.entityId, v.entityType, "rejected")
      case Ok(m) => (updated.(entityStatus := m), None)
      case Err(e) => (updated, Some(e))
  }

  // ---------------------------------------------------------------- properties

  /** Only production orders, quotes and quality controls have a status table. */
  lemma StatusTableMapsThreeTypes(entityType: string)
    ensures StatusTable(entityType).Some? <==>
      entityType in ["production_order", "quote", "quality_control"]
  {
  }

  /** The newest active workflow for the type is selected, its null step list read as empty. */
  lemma NewestActiveWins(ws: seq<WorkflowRow>, entityType: string, i: nat)
    requires i < |ws| && Selectable(ws[i], entityType)
    requires forall j :: i < j < |ws| ==> !Selectable(ws[j], entityType)
    ensures WorkflowForEntity(ws, entityType) == Some(View(ws[i]))
    ensures WorkflowForEntity(ws, entityType).value.steps == ws[i].steps.GetOr([])
  {
  }

  /** With no active workflow, or one without steps, submission returns
      'approved' and creates no validation. */
  lemma SubmitBypass(t: Tables, entityId: string, entityType: string, actor: string)
    requires var w := WorkflowForEntity(t.workflows, entityType); w.None? || w.value.steps == []
    ensures Submit(t, entityId, entityType, actor) == (t, AutoApproved)
  {
  }

  /** Otherwise exactly one pending validation is created, at the first step. */
  lemma SubmitCreatesOnePending(t: Tables, entityId: string, entityType: string, actor: string)
    requires var w := WorkflowForEntity(t.workflows, entityType); w.Some? && w.value.steps != []
    ensures var (t', s) := Submit(t, entityId, entityType, actor);
      var w := WorkflowForEntity(t.workflows, entityType).value;
      && s == Submitted(|t.validations|)
      && t'.validations == t.validations + [Validation(|t.validations|, entityId, entityType, w.id, w.steps[0].id, Pending, actor, None)]
      && t'.workflows == t.workflows && t'.approvals == t.approvals && t'.entityStatus == t.entityStatus
  {
  }

  /** Approval of an unknown validation, of a validation whose workflow is
      gone, or of a step id that is nowhere in the list, fails and writes nothing. */
  lemma ApproveFailsCleanly(t: Tables, vid: nat, stepId: string, actor: string, comments: Option<string>)
    requires vid >= |t.validations|
      || t.validations[vid].workflowId >= |t.workflows|
      || t.workflows[t.validations[vid].workflowId].steps.None?
      || StepIndex(t.workflows[t.validations[vid].workflowId].steps.value, stepId).None?
    ensures Approve(t, vid, stepId, actor, comments).0 == t
    ensures Approve(t, vid, stepId, actor, comments).1.Err?
  {
  }

  predicate FoundStep(t: Tables, vid: nat, stepId: string) {
    && vid < |t.validations|
    && t.validations[vid].workflowId < |t.workflows|
    && t.workflows[t.validations[vid].workflowId].steps.Some?
    && StepIndex(t.workflows[t.validations[vid].workflowId].steps.value, stepId).Some?
  }

  function StepsOf(t: Tables, vid: nat): seq<Step>
    requires vid < |t.validations| && t.validations[vid].workflowId < |t.workflows|
    requires t.workflows[t.validations[vid].workflowId].steps.Some?
  {
    t.workflows[t.validations[vid].workflowId].steps.value
  }

  /** Any step id in the list is accepted and audited, whatever the
      validation's current step and status; the workflows are not touched. */
  lemma ApproveAuditsAnyListedStep(t: Tables, vid: nat, stepId: string, actor: string, comments: Option<string>)
    requires FoundStep(t, vid, stepId)
    ensures var t' := Approve(t, vid, stepId, actor, comments).0;
      t'.approvals == t.approvals + [Approval(vid, stepId, actor, comments)] && t'.workflows == t.workflows
      && |t'.validations| == |t.validations|
  {
  }

  /** Approving a step that is not the last moves the validation to the next
      step and leaves its status as it was. */
  lemma ApproveAdvances(t: Tables, vid: nat, stepId: string, actor: string, comments: Option<string>)
    requires FoundStep(t, vid, stepId)
    requires StepIndex(StepsOf(t, vid), stepId).value < |StepsOf(t, vid)| - 1
    ensures var (t', r) := Approve(t, vid, stepId, actor, comments);
      var next := StepsOf(t, vid)[StepIndex(StepsOf(t, vid), stepId).value + 1].id;
      && r == Ok(StillPending(next))
      && t'.validations == t.validations[vid := t.validations[vid].(currentStep := next)]
      && t'.entityStatus == t.entityStatus
  {
  }

  /** Approving the last step approves the validation, whatever its status
      was (a rejected validation included), and writes 'approved' to the entity. */
  lemma ApproveLastCompletes(t: Tables, vid: nat, stepId: string, actor: string, comments: Option<string>)
    requires FoundStep(t, vid, stepId)
    requires StepIndex(StepsOf(t, vid), stepId).value == |StepsOf(t, vid)| - 1
    ensures var (t', r) := Approve(t, vid, stepId, actor, comments);
      var v := t.validations[vid];
      && t'.validations == t.validations[vid := v.(status := Approved)]
      && (StatusTable(v.entityType).Some? ==>
            r == Ok(Completed) && t'.entityStatus == WriteStatus(t.entityStatus, v.entityId, v.entityType, "approved").value)
      && (StatusTable(v.entityType).None? ==>
            r == Err(UnsupportedEntityType(v.entityType)) && t'.entityStatus == t.entityStatus)
  {
  }

  /** Rejection is immediate from any position and for any step id, listed or
      not; the reason is stored and 'rejected' is written to the entity. */
  lemma RejectFromAnyPosition(t: Tables, vid: nat, stepId: string, actor: string, reason: string)
    requires vid < |t.validations|
    ensures var (t', e) := Reject(t, vid, stepId, actor, reason);
      var v := t.validations[vid];
      && t'.validations == t.validations[vid := v.(status := Rejected, rejectionReason := Some(reason))]
      && t'.approvals == t.approvals && t'.workflows == t.workflows
      && (e.None? <==> StatusTable(v.entityType).Some?)
      && (e.None? ==> t'.entityStatus == WriteStatus(t.entityStatus, v.entityId, v.entityType, "rejected").value)
      && (e.Some? ==> e.value == UnsupportedEntityType(v.entityType) && t'.entityStatus == t.entityStatus)
  {
  }

  /** Rejecting an unknown validation re-reads no row and fails on it, after
      writing nothing. */
  lemma RejectUnknownValidation(t: Tables, vid: nat, stepId: string, actor: string, reason: string)
    requires vid >= |t.validations|
    ensures Reject(t, vid, stepId, actor, reason) == (t, Some(ValidationMissing))
  {
  }

  /** Rejection is not absorbing: after a rejection, approving the last step
      turns the validation to 'approved' and overwrites the entity's status. */
  lemma ApprovalAfterRejection(t: Tables, vid: nat, stepId: string, actor: string, reason: string)
    requires FoundStep(t, vid, stepId)
    requires StepIndex(StepsOf(t, vid), stepId).value == |StepsOf(t, vid)| - 1
    requires StatusTable(t.validations[vid].entityType).Some?
    ensures var t1 := Reject(t, vid, stepId, actor, reason).0;
      var t2 := Approve(t1, vid, stepId, actor, None).0;
      t1.validations[vid].status == Rejected && t2.validations[vid].status == Approved
  {
    var t1 := Reject(t, vid, stepId, actor, reason).0;
    assert t1.workflows == t.workflows && t1.validations[vid].workflowId == t.validations[vid].workflowId;
    ApproveLastCompletes(t1, vid, stepId, actor, None);
  }

  // ---------------------------------------------------------------- sequential approval

  /** Every step carries an id and no two steps share one. */
  predicate DistinctIds(steps: seq<Step>) {
    && (forall i :: 0 <= i < |steps| ==> steps[i].id.Some?)
    && (forall i, j :: 0 <= i < j < |steps| ==> steps[i].id != steps[j].id)
  }

  /** The ids of steps `k`, `k + 1`, ... in order. */
  function IdsFrom(steps: seq<Step>, k: nat): (ids: seq<string>)
    requires forall i :: 0 <= i < |steps| ==> steps[i].id.Some?
    requires k <= |steps|
    ensures |ids| == |steps| - k
    ensures forall j :: 0 <= j < |ids| ==> Some(ids[j]) == steps[k + j].id
    decreases |steps| - k
  {
    if k == |steps| then [] else [steps[k].id.value] + IdsFrom(steps, k + 1)
  }

  /** The audit rows of approving `ids` in order. */
  function AuditRows(vid: nat, ids: seq<string>, actor: string): (rows: seq<Approval>)
    ensures |rows| == |ids|
  {
    if ids == [] then [] else [Approval(vid, ids[0], actor, None)] + AuditRows(vid, ids[1..], actor)
  }

  /** Approving `ids` one after the other. */
  function ApproveAll(t: Tables, vid: nat, ids: seq<string>, actor: string): Tables
    decreases |ids|
  {
    if ids == [] then t else ApproveAll(Approve(t, vid, ids[0], actor, None).0, vid, ids[1..], actor)
  }

  /** Approving the listed step at position `k` audits it, keeps the
      workflows and the validation's workflow, and approves at the last step;
      `t1` is the state it leaves. */
  lemma ApproveStepAt(t: Tables, vid: nat, steps: seq<Step>, k: nat, actor: string) returns (t1: Tables)
    requires vid < |t.validations| && t.validations[vid].workflowId < |t.workflows|
    requires t.workflows[t.validations[vid].workflowId].steps == Some(steps)
    requires DistinctIds(steps) && k < |steps|
    ensures t1 == Approve(t, vid, steps[k].id.value, actor, None).0
    ensures ApproveAll(t, vid, IdsFrom(steps, k), actor) == ApproveAll(t1, vid, IdsFrom(steps, k + 1), actor)
    ensures t1.workflows == t.workflows
    ensures |t1.validations| == |t.validations|
    ensures t1.validations[vid].workflowId == t.validations[vid].workflowId
    ensures t1.approvals == t.approvals + [Approval(vid, steps[k].id.value, actor, None)]
    ensures k == |steps| - 1 ==> t1.validations[vid].status == Approved
  {
    assert StepIndex(steps, steps[k].id.value) == Some(k);
    t1 := Approve(t, vid, steps[k].id.value, actor, None).0;
    var ids := IdsFrom(steps, k);
    assert ids[1..] == IdsFrom(steps, k + 1);
  }

  /** Approving the steps from position `k` to the last, in order, approves
      the validation and leaves one audit row per step. */
  lemma {:induction false} ApprovingInOrderCompletes(t: Tables, vid: nat, steps: seq<Step>, k: nat, actor: string)
    requires vid < |t.validations| && t.validations[vid].workflowId < |t.workflows|
    requires t.workflows[t.validations[vid].workflowId].steps == Some(steps)
    requires DistinctIds(steps) && k < |steps|
    ensures var t' := ApproveAll(t, vid, IdsFrom(steps, k), actor);
      && |t'.validations| == |t.validations|
      && t'.validations[vid].status == Approved
      && t'.approvals == t.approvals + AuditRows(vid, IdsFrom(steps, k), actor)
    decreases |steps| - k
  {
    var t1 := ApproveStepAt(t, vid, steps, k, actor);
    var row := Approval(vid, steps[k].id.value, actor, None);
    var rest := AuditRows(vid, IdsFrom(steps, k + 1), actor);
    assert AuditRows(vid, IdsFrom(steps, k), actor) == [row] + rest;
    assert (t.approvals + [row]) + rest == t.approvals + ([row] + rest);
    if k < |steps| - 1 {
      ApprovingInOrderCompletes(t1, vid, steps, k + 1, actor);
    } else {
      assert rest == [];
    }
  }

  /** When no step carries an id (steps created through createWorkflow's
      declared type), no step can ever be approved. */
  lemma IdlessStepsNeverApprove(t: Tables, vid: nat, stepId: string, actor: string, comments: Option<string>)
    requires vid < |t.validations| && t.validations[vid].workflowId < |t.workflows|
    requires t.workflows[t.validations[vid].workflowId].steps.Some?
    requires forall i :: 0 <= i < |StepsOf(t, vid)| ==> StepsOf(t, vid)[i].id.None?
    ensures Approve(t, vid, stepId, actor, comments) == (t, Err(StepNotFound))
  {
    assert StepIndex(StepsOf(t, vid), stepId).None?;
  }

  // ---------------------------------------------------------------- the service

  /** The service's tables, updated in place. */
  class WorkflowStore {
    var workflows: seq<WorkflowRow>
    var validations: seq<Validation>
    var approvals: seq<Approval>
    var entityStatus: map<(string, string), string>

    ghost predicate Valid()
      reads this
    {
      && (forall i :: 0 <= i < |workflows| ==> workflows[i].id == i)
      && (forall i :: 0 <= i < |validations| ==> validations[i].id == i)
    }

    function Snapshot(): Tables
      reads this
    {
      Tables(workflows, validations, approvals, entityStatus)
    }

    /** A store with no workflows yet and the given entity statuses. */
    constructor (statuses: map<(string, string), string>)
      ensures Valid() && Snapshot() == Tables([], [], [], statuses)
    {
      workflows, validations, approvals, entityStatus := [], [], [], statuses;
    }

    /** createWorkflow: a new active workflow; the step list is not checked. */
    method CreateWorkflow(name: string, entityType: string, steps: seq<Step>) returns (w: WorkflowDef)
      requires Valid()
      modifies this
      ensures Valid()
      ensures Snapshot() == AddWorkflow(old(Snapshot()), name, entityType, steps)
      ensures w == View(workflows[|workflows| - 1])
    {
      var row := WorkflowRow(|workflows|, name, entityType, Some(steps), true);
      workflows := workflows + [row];
      w := View(row);
    }

    method SubmitForApproval(entityId: string, entityType: string, submittedBy: string) returns (s: Submission)
      requires Valid()
      modifies this
      ensures Valid()
      ensures (Snapshot(), s) == Submit(old(Snapshot()), entityId, entityType, submittedBy)
    {
      var workflow := WorkflowForEntity(workflows, entityType);
      if workflow.None? || workflow.value.steps == [] {
        return AutoApproved;
      }
      var id := |validations|;
      validations := validations + [Validation(id, entityId, entityType, workflow.value.id,
                                               workflow.value.steps[0].id, Pending, submittedBy, None)];
      s := Submitted(id);
    }

    method ApproveStep(validationId: nat, stepId: string, approvedBy: string, comments: Option<string>)
      returns (r: Result<ApproveOutcome, WorkflowError>)
      requires Valid()
      modifies this
      ensures Valid()
      ensures (Snapshot(), r) == Approve(old(Snapshot()), validationId, stepId, approvedBy, comments)
    {
      if validationId >= |validations| {
        return Err(ValidationNotFound);
      }
      var v := validations[validationId];
      if v.workflowId >= |workflows| {
        return Err(WorkflowNotFound);
      }
      var stored := workflows[v.workflowId].steps;
      if stored.None? {
        return Err(StepsMissing);
      }
      var steps := stored.value;
      var index := StepIndex(steps, stepId);
      if index.None? {
        return Err(StepNotFound);
      }
      var i := index.value;
      approvals := approvals + [Approval(validationId, stepId, approvedBy, comments)];
      if i < |steps| - 1 {
        validations := validations[validationId := v.(currentStep := steps[i + 1].id)];
        r := Ok(StillPending(steps[i + 1].id));
      } else {
        validations := validations[validationId := v.(status := Approved)];
        var failure := UpdateEntityStatus(v.entityId, v.entityType, "approved");
        r := if failure.None? then Ok(Completed) else Err(failure.value);
      }
    }

    method RejectStep(validationId: nat, stepId: string, rejectedBy: string, reason: string)
      returns (failure: Option<WorkflowError>)
      requires Valid()
      modifies this
      ensures Valid()
      ensures (Snapshot(), failure) == Reject(old(Snapshot()), validationId, stepId, rejectedBy, reason)
    {
      if validationId < |validations| {
        validations := validations[validationId := validations[validationId].(status := Rejected, rejectionReason := Some(reason))];
      }
      if validationId >= |validations| {
        return Some(ValidationMissing);
      }
      var v := validations[validationId];
      failure := UpdateEntityStatus(v.entityId, v.entityType, "rejected");
    }

    method UpdateEntityStatus(entityId: string, entityType: string, status: string)
      returns (failure: Option<WorkflowError>)
      modifies this
      ensures workflows == old(workflows) && validations == old(validations) && approvals == old(approvals)
      ensures match WriteStatus(old(entityStatus), entityId, entityType, status)
        case Ok(m) => failure.None? && entityStatus == m
        case Err(e) => failure == Some(e) && entityStatus == old(entityStatus)
    {
      var table := StatusTable(entityType);
      if table.None? {
        return Some(UnsupportedEntityType(entityType));
      }
      if (table.value, entityId) in entityStatus {
        entityStatus := entityStatus[(table.value, entityId) := status];
      }
      failure := None;
    }
  }

  /** The quote scenario: a two-step workflow, approved step by step. */
  method QuoteApprovalScenario() returns (store: WorkflowStore)
    ensures ("quotes", "quote-42") in store.entityStatus && store.entityStatus[("quotes", "quote-42")] == "approved"
    ensures |store.approvals| == 2 && |store.validations| == 1 && store.validations[0].status == Approved
  {
    store := new WorkflowStore(map[("quotes", "quote-42") := "draft"]);
    var s1 := Step(Some("S1"), "Manager", 1, "sales_manager", true, true);
    var s2 := Step(Some("S2"), "Admin", 2, "admin", true, true);
    var w := store.CreateWorkflow("W", "quote", [s1, s2]);
    var sub := store.SubmitForApproval("quote-42", "quote", "user-7");
    assert sub == Submitted(0);
    assert store.validations[0].currentStep == Some("S1");
    var r1 := store.ApproveStep(0, "S1", "mgr-1", Some("ok"));
    assert r1 == Ok(StillPending(Some("S2")));
    var r2 := store.ApproveStep(0, "S2", "admin-1", None);
    assert r2 == Ok(Completed);
  }

  /** The rejection scenario: the quote is rejected at its first step. */
  method QuoteRejectionScenario() returns (store: WorkflowStore)
    ensures ("quotes", "quote-42") in store.entityStatus && store.entityStatus[("quotes", "quote-42")] == "rejected"
    ensures |store.validations| == 1 && store.validations[0].rejectionReason == Some("price too low")
  {
    store := new WorkflowStore(map[("quotes", "quote-42") := "draft"]);
    var s1 := Step(Some("S1"), "Manager", 1, "sales_manager", true, true);
    var s2 := Step(Some("S2"), "Admin", 2, "admin", true, true);
    var w := store.CreateWorkflow("W", "quote", [s1, s2]);
    var sub := store.SubmitForApproval("quote-42", "quote", "user-7");
    assert sub == Submitted(0);
    var e := store.RejectStep(0, "S1", "mgr-1", "price too low");
  }
}
