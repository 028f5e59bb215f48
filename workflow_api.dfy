/** The HTTP handlers of backend/src/controllers/workflowController.ts: the
    checks each makes on the request before calling the service, and how the
    service's answer or failure becomes a response. */
module WorkflowApi {
  import opened Common
  import opened Workflow

  datatype Body =
    | Failure(error: string)
    | WorkflowData(workflow: WorkflowDef)
    | SubmissionData(validationId: Submission)
    | ApprovalData(outcome: ApproveOutcome)
    | Message(text: string)

  datatype Response = Response(code: int, body: Body)

  const Unauthenticated: Response := Response(401, Failure("Non authentifié"))

  /** Every failure the service raises is answered with 500 and its message. */
  function ServerError(e: WorkflowError): (r: Response)
    ensures r.code == 500 && r.body == Failure(ErrorMessage(e))
  {
    Response(500, Failure(ErrorMessage(e)))
  }

  /** createWorkflow's check: name, entity type and steps must all be truthy.
      Any array is truthy, the empty one included. */
  function CreateWorkflowCheck(name: Option<string>, entityType: Option<string>, steps: Option<seq<Step>>): (r: Option<Response>)
    ensures r.None? <==> Truthy(name) && Truthy(entityType) && steps.Some?
    ensures r.Some? ==> r.value == Response(400, Failure("Nom, type d'entité et étapes requis"))
  {
    if !Truthy(name) || !Truthy(entityType) || steps.None? then
      Some(Response(400, Failure("Nom, type d'entité et étapes requis")))
    else None
  }

  /** submitForApproval's checks: the ids are checked before the user. */
  function SubmitCheck(entityId: Option<string>, entityType: Option<string>, user: Option<string>): (r: Option<Response>)
    ensures r.None? <==> Truthy(entityId) && Truthy(entityType) && user.Some?
    ensures !(Truthy(entityId) && Truthy(entityType)) ==> r == Some(Response(400, Failure("ID et type d'entité requis")))
    ensures Truthy(entityId) && Truthy(entityType) && user.None? ==> r == Some(Unauthenticated)
  {
    if !Truthy(entityId) || !Truthy(entityType) then Some(Response(400, Failure("ID et type d'entité requis")))
    else if user.None? then Some(Unauthenticated)
    else None
  }

  /** rejectStep's checks: the reason is checked before the user. */
  function RejectCheck(reason: Option<string>, user: Option<string>): (r: Option<Response>)
    ensures r.None? <==> Truthy(reason) && user.Some?
    ensures !Truthy(reason) ==> r == Some(Response(400, Failure("Raison du rejet requise")))
    ensures Truthy(reason) && user.None? ==> r == Some(Unauthenticated)
  {
    if !Truthy(reason) then Some(Response(400, Failure("Raison du rejet requise")))
    else if user.None? then Some(Unauthenticated)
    else None
  }

  /** A request without ids is answered 400 even when it is also unauthenticated. */
  lemma MissingIdsBeforeAuthentication(entityType: Option<string>)
    ensures SubmitCheck(None, entityType, None).value.code == 400
    ensures RejectCheck(Some(""), None).value.code == 400
  {
  }

  /** POST /workflows. */
  method CreateWorkflow(store: WorkflowStore, name: Option<string>, entityType: Option<string>, steps: Option<seq<Step>>)
    returns (resp: Response)
    requires store.Valid()
    modifies store
    ensures store.Valid()
    ensures CreateWorkflowCheck(name, entityType, steps).Some? ==>
      resp == CreateWorkflowCheck(name, entityType, steps).value && unchanged(store)
    ensures CreateWorkflowCheck(name, entityType, steps).None? ==>
      && store.Snapshot() == AddWorkflow(old(store.Snapshot()), name.value, entityType.value, steps.value)
      && resp == Response(201, WorkflowData(View(store.workflows[|store.workflows| - 1])))
  {
    var early := CreateWorkflowCheck(name, entityType, steps);
    if early.Some? {
      return early.value;
    }
    var w := store.CreateWorkflow(name.value, entityType.value, steps.value);
    resp := Response(201, WorkflowData(w));
  }

  /** GET /workflows/:entityType. */
  function GetWorkflow(store: WorkflowStore, entityType: string): (resp: Response)
    reads store
    ensures resp.code == 404 <==> WorkflowForEntity(store.workflows, entityType).None?
    ensures resp.code == 200 ==> resp.body == WorkflowData(WorkflowForEntity(store.workflows, entityType).value)
  {
    match WorkflowForEntity(store.workflows, entityType)
    case None => Response(404, Failure("Workflow non trouvé"))
    case Some(w) => Response(200, WorkflowData(w))
  }

  /** POST /workflows/submit. */
  method SubmitForApproval(store: WorkflowStore, entityId: Option<string>, entityType: Option<string>, user: Option<string>)
    returns (resp: Response)
    requires store.Valid()
    modifies store
    ensures store.Valid()
    ensures SubmitCheck(entityId, entityType, user).Some? ==>
      resp == SubmitCheck(entityId, entityType, user).value && unchanged(store)
    ensures SubmitCheck(entityId, entityType, user).None? ==>
      var (t, s) := Submit(old(store.Snapshot()), entityId.value, entityType.value, user.value);
      store.Snapshot() == t && resp == Response(200, SubmissionData(s))
  {
    var early := SubmitCheck(entityId, entityType, user);
    if early.Some? {
      return early.value;
    }
    var s := store.SubmitForApproval(entityId.value, entityType.value, user.value);
    resp := Response(200, SubmissionData(s));
  }

  /** POST /workflows/:validationId/approve/:stepId. */
  method ApproveStep(store: WorkflowStore, validationId: nat, stepId: string, comments: Option<string>, user: Option<string>)
    returns (resp: Response)
    requires store.Valid()
    modifies store
    ensures store.Valid()
    ensures user.None? ==> resp == Unauthenticated && unchanged(store)
    ensures user.Some? ==>
      var (t, r) := Approve(old(store.Snapshot()), validationId, stepId, user.value, comments);
      && store.Snapshot() == t
      && resp == (if r.Ok? then Response(200, ApprovalData(r.value)) else ServerError(r.error))
  {
    if user.None? {
      return Unauthenticated;
    }
    var r := store.ApproveStep(validationId, stepId, user.value, comments);
    resp := if r.Ok? then Response(200, ApprovalData(r.value)) else ServerError(r.error);
  }

  /** POST /workflows/:validationId/reject/:stepId. */
  method RejectStep(store: WorkflowStore, validationId: nat, stepId: string, reason: Option<string>, user: Option<string>)
    returns (resp: Response)
    requires store.Valid()
    modifies store
    ensures store.Valid()
    ensures RejectCheck(reason, user).Some? ==> resp == RejectCheck(reason, user).value && unchanged(store)
    ensures RejectCheck(reason, user).None? ==>
      var (t, e) := Reject(old(store.Snapshot()), validationId, stepId, user.value, reason.value);
      && store.Snapshot() == t
      && resp == (if e.None? then Response(200, Message("Étape rejetée avec succès")) else ServerError(e.value))
  {
    var early := RejectCheck(reason, user);
    if early.Some? {
      return early.value;
    }
    var e := store.RejectStep(validationId, stepId, user.value, reason.value);
    resp := if e.None? then Response(200, Message("Étape rejetée avec succès")) else ServerError(e.value);
  }

  /** An approval that fails for an unsupported entity type is answered 500
      although the approval row and the approved status were written. */
  lemma FailedAnswerAfterWrites(t: Tables, vid: nat, stepId: string, actor: string, comments: Option<string>)
    requires FoundStep(t, vid, stepId)
    requires StepIndex(StepsOf(t, vid), stepId).value == |StepsOf(t, vid)| - 1
    requires StatusTable(t.validations[vid].entityType).None?
    ensures var (t', r) := Approve(t, vid, stepId, actor, comments);
      && r.Err? && ServerError(r.error).code == 500
      && |t'.approvals| == |t.approvals| + 1
      && t'.validations[vid].status == Approved
  {
    ApproveLastCompletes(t, vid, stepId, actor, comments);
    ApproveAuditsAnyListedStep(t, vid, stepId, actor, comments);
  }
}
