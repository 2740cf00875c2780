/** The tender HTTP endpoints as decisions: each endpoint checks the request
    fields, then looks the project up, and only then calls the workflow,
    turning a thrown exception into a 500. What the endpoint asks of the
    services is returned beside its response; the lookup result and whether
    the workflow call threw are inputs. */
module TenderApi {
  import opened Wrappers
  import opened Strings
  import opened ProjectStore
  import opened Workflow

  const PendingUserReview := "PendingUserReview"
  const SimulatedOutlineId := "simulated-outline-001"
  const SimulatedOutlineContent := "Chapter 1: Introduction\nChapter 2: Requirements\nChapter 3: Solution"

  /** Request bodies; a missing body is None, a missing field is None. */
  datatype TenderProjectCreationRequest = TenderProjectCreationRequest(
    projectName: Option<string>, createdBy: Option<string>)
  datatype OutlineUpdateRequest = OutlineUpdateRequest(outlineId: Option<string>, userFeedback: Option<string>)
  datatype OutlineConfirmationRequest = OutlineConfirmationRequest(outlineId: Option<string>)

  /** The outline the outline endpoint reports (a fixed placeholder). */
  datatype SimulatedOutline = SimulatedOutline(
    outlineId: string, projectId: string, content: string, status: string, version: int)

  datatype ActionResult =
    | OkProject(project: TenderProject)
    | OkOutline(outline: SimulatedOutline)
    | OkMessage(message: string)
    | BadRequest(message: string)
    | NotFound(message: string)
    | InternalServerError(message: string)

  function StatusCode(r: ActionResult): int {
    match r
    case OkProject(_) => 200
    case OkOutline(_) => 200
    case OkMessage(_) => 200
    case BadRequest(_) => 400
    case NotFound(_) => 404
    case InternalServerError(_) => 500
  }

  /** The service call an endpoint makes, if any. */
  datatype ServiceCall =
    | NoCall
    | CreateProjectCall(projectName: string, createdBy: string)
    | StartWorkflowCall(projectId: string, requirementPdfData: seq<byte>)
    | FeedbackCall(projectId: string, outlineId: string, userFeedback: string)
    | ConfirmCall(projectId: string, outlineId: string)

  datatype EndpointOutcome = EndpointOutcome(call: ServiceCall, result: ActionResult)

  function ProjectNotFound(id: string): ActionResult {
    NotFound("Project with ID '" + id + "' not found.")
  }

  /** The status the outline endpoint reports for a project stage. */
  function OutlineStatusLabel(stage: string): (status: string)
    ensures stage == OutlineGenerationPending || stage == OutlineRegenerationPending ==> status == PendingUserReview
    ensures stage != OutlineGenerationPending && stage != OutlineRegenerationPending ==> status == stage
  {
    if stage == OutlineGenerationPending || stage == OutlineRegenerationPending then PendingUserReview else stage
  }

  /** POST projects. `created` is what the project service returns when called. */
  function CreateTenderProject(request: Option<TenderProjectCreationRequest>, created: Option<TenderProject>)
    : (r: EndpointOutcome)
    ensures StatusCode(r.result) == 400 <==>
      request.None? || IsNullOrWhiteSpace(request.value.projectName) || IsNullOrWhiteSpace(request.value.createdBy)
      || created.None?
    ensures r.call != NoCall <==>
      request.Some? && !IsNullOrWhiteSpace(request.value.projectName) && !IsNullOrWhiteSpace(request.value.createdBy)
    ensures r.call != NoCall ==>
      r.call == CreateProjectCall(request.value.projectName.value, request.value.createdBy.value)
    ensures r.result.OkProject? ==> created == Some(r.result.project)
    ensures request.Some? && !IsNullOrWhiteSpace(request.value.projectName)
            && !IsNullOrWhiteSpace(request.value.createdBy) && created.Some? ==>
      r.result == OkProject(created.value)
  {
    if request.None? || IsNullOrWhiteSpace(request.value.projectName) || IsNullOrWhiteSpace(request.value.createdBy) then
      EndpointOutcome(NoCall, BadRequest("ProjectName and CreatedBy are required."))
    else
      var call := CreateProjectCall(request.value.projectName.value, request.value.createdBy.value);
      match created
      case None => EndpointOutcome(call, BadRequest("Failed to create project."))
      case Some(project) => EndpointOutcome(call, OkProject(project))
  }

  /** POST projects/{id}/upload. */
  function UploadRequirementDocument(id: string, file: Option<seq<byte>>, lookup: Option<TenderProject>,
                                     workflowThrows: bool): (r: EndpointOutcome)
    ensures StatusCode(r.result) == 400 <==> file.None? || |file.value| == 0
    ensures StatusCode(r.result) == 404 <==> file.Some? && |file.value| > 0 && lookup.None?
    ensures StatusCode(r.result) == 500 <==> r.call != NoCall && workflowThrows
    ensures r.call != NoCall <==> file.Some? && |file.value| > 0 && lookup.Some?
    ensures r.call != NoCall ==> r.call == StartWorkflowCall(id, file.value)
  {
    if file.None? || |file.value| == 0 then
      EndpointOutcome(NoCall, BadRequest("File is empty."))
    else if lookup.None? then
      EndpointOutcome(NoCall, ProjectNotFound(id))
    else if workflowThrows then
      EndpointOutcome(StartWorkflowCall(id, file.value),
                      InternalServerError("An error occurred while starting the project workflow."))
    else
      EndpointOutcome(StartWorkflowCall(id, file.value),
                      OkMessage("File uploaded successfully for project " + id + ". Workflow started."))
  }

  /** GET projects/{id}/outline: a placeholder outline whose status follows the stage. */
  function GetProjectOutline(id: string, lookup: Option<TenderProject>): (r: ActionResult)
    ensures lookup.None? <==> r == ProjectNotFound(id)
    ensures lookup.Some? ==> r.OkOutline? && r.outline.version == 1 && r.outline.projectId == id
                             && r.outline.status == OutlineStatusLabel(lookup.value.currentStage)
  {
    match lookup
    case None => ProjectNotFound(id)
    case Some(project) =>
      OkOutline(SimulatedOutline(SimulatedOutlineId, id, SimulatedOutlineContent,
                                 OutlineStatusLabel(project.currentStage), 1))
  }

  predicate ValidUpdate(request: Option<OutlineUpdateRequest>) {
    request.Some? && !IsNullOrWhiteSpace(request.value.outlineId) && !IsNullOrWhiteSpace(request.value.userFeedback)
  }

  /** PUT projects/{id}/outline: feedback on the outline. */
  function UpdateProjectOutline(id: string, request: Option<OutlineUpdateRequest>, lookup: Option<TenderProject>,
                                workflowThrows: bool): (r: EndpointOutcome)
    ensures StatusCode(r.result) == 400 <==> !ValidUpdate(request)
    ensures StatusCode(r.result) == 404 <==> ValidUpdate(request) && lookup.None?
    ensures StatusCode(r.result) == 500 <==> r.call != NoCall && workflowThrows
    ensures r.call != NoCall <==> ValidUpdate(request) && lookup.Some?
    ensures r.call != NoCall ==>
      r.call == FeedbackCall(id, request.value.outlineId.value, request.value.userFeedback.value)
  {
    if !ValidUpdate(request) then
      EndpointOutcome(NoCall, BadRequest("OutlineId and UserFeedback are required."))
    else if lookup.None? then
      EndpointOutcome(NoCall, ProjectNotFound(id))
    else
      var outlineId := request.value.outlineId.value;
      var call := FeedbackCall(id, outlineId, request.value.userFeedback.value);
      if workflowThrows then
        EndpointOutcome(call, InternalServerError("An error occurred while processing outline feedback."))
      else
        EndpointOutcome(call, OkMessage("Feedback for outline " + outlineId + " on project " + id
                                        + " received and is being processed."))
  }

  predicate ValidConfirmation(request: Option<OutlineConfirmationRequest>) {
    request.Some? && !IsNullOrWhiteSpace(request.value.outlineId)
  }

  /** POST projects/{id}/outline/confirm. */
  function ConfirmProjectOutline(id: string, request: Option<OutlineConfirmationRequest>,
                                 lookup: Option<TenderProject>, workflowThrows: bool): (r: EndpointOutcome)
    ensures StatusCode(r.result) == 400 <==> !ValidConfirmation(request)
    ensures StatusCode(r.result) == 404 <==> ValidConfirmation(request) && lookup.None?
    ensures StatusCode(r.result) == 500 <==> r.call != NoCall && workflowThrows
    ensures r.call != NoCall <==> ValidConfirmation(request) && lookup.Some?
    ensures r.call != NoCall ==> r.call == ConfirmCall(id, request.value.outlineId.value)
  {
    if !ValidConfirmation(request) then
      EndpointOutcome(NoCall, BadRequest("OutlineId is required for confirmation."))
    else if lookup.None? then
      EndpointOutcome(NoCall, ProjectNotFound(id))
    else
      var outlineId := request.value.outlineId.value;
      if workflowThrows then
        EndpointOutcome(ConfirmCall(id, outlineId),
                        InternalServerError("An error occurred while confirming the outline."))
      else
        EndpointOutcome(ConfirmCall(id, outlineId),
                        OkMessage("Outline " + outlineId + " for project " + id + " has been confirmed."))
  }

  /** Request validation comes before the lookup: an invalid request gets the
      same 400 whatever the store holds and whatever the workflow would do. */
  lemma ValidationBeforeLookup(id: string, lookup1: Option<TenderProject>, lookup2: Option<TenderProject>,
                               throws1: bool, throws2: bool, update: Option<OutlineUpdateRequest>,
                               confirm: Option<OutlineConfirmationRequest>, file: Option<seq<byte>>)
    ensures !ValidUpdate(update) ==>
      UpdateProjectOutline(id, update, lookup1, throws1) == UpdateProjectOutline(id, update, lookup2, throws2)
    ensures !ValidConfirmation(confirm) ==>
      ConfirmProjectOutline(id, confirm, lookup1, throws1) == ConfirmProjectOutline(id, confirm, lookup2, throws2)
    ensures file.None? || |file.value| == 0 ==>
      UploadRequirementDocument(id, file, lookup1, throws1) == UploadRequirementDocument(id, file, lookup2, throws2)
  {
  }

  /** The label is "PendingUserReview" exactly for the two outline-pending
      stages and for a stage that is itself named so; every other stage is
      reported unchanged. */
  lemma PendingReviewLabel(stage: string)
    ensures OutlineStatusLabel(stage) == PendingUserReview <==>
      stage == OutlineGenerationPending || stage == OutlineRegenerationPending || stage == PendingUserReview
  {
  }

  /** After starting the workflow or sending feedback the outline endpoint
      reports the outline as awaiting review; after confirming it reports the
      confirmation stage. */
  lemma {:induction false} LabelAfterWorkflow(ps: seq<TenderProject>, id: string)
    requires Lookup(ps, id).Some?
    ensures GetProjectOutline(id, Lookup(Started(ps, id), id)).OkOutline?
            && GetProjectOutline(id, Lookup(Started(ps, id), id)).outline.status == PendingUserReview
    ensures GetProjectOutline(id, Lookup(FeedbackProcessed(ps, id), id)).OkOutline?
            && GetProjectOutline(id, Lookup(FeedbackProcessed(ps, id), id)).outline.status == PendingUserReview
    ensures GetProjectOutline(id, Lookup(Confirmed(ps, id), id)).OkOutline?
            && GetProjectOutline(id, Lookup(Confirmed(ps, id), id)).outline.status == ContentStructurePending
  {
    StartEndsOutlinePending(ps, id);
    LookupAfterWithStage(ps, id, OutlineRegenerationPending);
    LookupAfterWithStage(ps, id, ContentStructurePending);
  }

  /** A feedback request the endpoint answers with 200, on the table the
      lookup came from, leaves the outline awaiting review at version 1. */
  lemma {:induction false} FeedbackAcceptedThenPendingReview(ps: seq<TenderProject>, id: string,
                                                             request: Option<OutlineUpdateRequest>)
    requires StatusCode(UpdateProjectOutline(id, request, Lookup(ps, id), false).result) == 200
    ensures var after := GetProjectOutline(id, Lookup(FeedbackProcessed(ps, id), id));
      after.OkOutline? && after.outline.status == PendingUserReview && after.outline.version == 1
  {
    LabelAfterWorkflow(ps, id);
  }
}
