/** The tender workflow: each operation is a fixed sequence of stage writes
    against the project store. The store's answer is ignored and the current
    stage is never consulted. */
module Workflow {
  import opened Wrappers
  import opened ProjectStore

  type byte = b: int | 0 <= b < 256

  const DocumentProcessing := "DocumentProcessing"
  const OutlineGenerationPending := "OutlineGenerationPending"
  const OutlineRegenerationPending := "OutlineRegenerationPending"
  const ContentStructurePending := "ContentStructurePending"

  /** The table after `StartProjectWorkflowAsync`: the document-processing
      write is overwritten, so only the outline-pending stage remains. */
  function Started(ps: seq<TenderProject>, id: string): (r: seq<TenderProject>)
    ensures r == WithStage(ps, id, OutlineGenerationPending)
    ensures SameIds(r, ps)
    ensures Lookup(ps, id).None? ==> r == ps
    ensures Lookup(ps, id).Some? ==>
      Lookup(r, id) == Some(Lookup(ps, id).value.(currentStage := OutlineGenerationPending))
  {
    LastWriteWins(ps, id, DocumentProcessing, OutlineGenerationPending);
    WithStageKeepsIds(ps, id, OutlineGenerationPending);
    if Lookup(ps, id).Some? then
      LookupAfterWithStage(ps, id, OutlineGenerationPending);
      WithStage(WithStage(ps, id, DocumentProcessing), id, OutlineGenerationPending)
    else
      WithStage(WithStage(ps, id, DocumentProcessing), id, OutlineGenerationPending)
  }

  /** The table after `ProcessOutlineFeedbackAsync`: the project, if present,
      is at the regeneration stage; nothing else differs. */
  function FeedbackProcessed(ps: seq<TenderProject>, id: string): (r: seq<TenderProject>)
    ensures SameIds(r, ps)
    ensures Lookup(ps, id).None? ==> r == ps
    ensures Lookup(ps, id).Some? ==>
      Lookup(r, id) == Some(Lookup(ps, id).value.(currentStage := OutlineRegenerationPending))
  {
    WithStageKeepsIds(ps, id, OutlineRegenerationPending);
    if Lookup(ps, id).Some? then
      LookupAfterWithStage(ps, id, OutlineRegenerationPending);
      WithStage(ps, id, OutlineRegenerationPending)
    else
      WithStage(ps, id, OutlineRegenerationPending)
  }

  /** The table after `ConfirmOutlineAsync`: the project, if present, is at
      the content-structure stage; nothing else differs. */
  function Confirmed(ps: seq<TenderProject>, id: string): (r: seq<TenderProject>)
    ensures SameIds(r, ps)
    ensures Lookup(ps, id).None? ==> r == ps
    ensures Lookup(ps, id).Some? ==>
      Lookup(r, id) == Some(Lookup(ps, id).value.(currentStage := ContentStructurePending))
  {
    WithStageKeepsIds(ps, id, ContentStructurePending);
    if Lookup(ps, id).Some? then
      LookupAfterWithStage(ps, id, ContentStructurePending);
      WithStage(ps, id, ContentStructurePending)
    else
      WithStage(ps, id, ContentStructurePending)
  }

  /** Starting leaves the project at the outline-pending stage; the
      intermediate document-processing stage is overwritten. */
  lemma {:induction false} StartEndsOutlinePending(ps: seq<TenderProject>, id: string)
    ensures Started(ps, id) == WithStage(ps, id, OutlineGenerationPending)
    ensures Lookup(ps, id).Some? ==>
      Lookup(Started(ps, id), id) == Some(Lookup(ps, id).value.(currentStage := OutlineGenerationPending))
  {
    LastWriteWins(ps, id, DocumentProcessing, OutlineGenerationPending);
    if Lookup(ps, id).Some? {
      LookupAfterWithStage(ps, id, OutlineGenerationPending);
    }
  }

  /** For an id no record has, every workflow operation leaves the table as it was. */
  lemma UnknownProjectUnchanged(ps: seq<TenderProject>, id: string)
    requires Lookup(ps, id).None?
    ensures Started(ps, id) == ps
    ensures FeedbackProcessed(ps, id) == ps
    ensures Confirmed(ps, id) == ps
  {
  }

  /** Feedback and confirmation set their stage on an existing project, and
      no other project is affected by either. */
  lemma {:induction false} FeedbackAndConfirmStages(ps: seq<TenderProject>, id: string, other: string)
    requires Lookup(ps, id).Some?
    requires other != id
    ensures Lookup(FeedbackProcessed(ps, id), id)
      == Some(Lookup(ps, id).value.(currentStage := OutlineRegenerationPending))
    ensures Lookup(Confirmed(ps, id), id)
      == Some(Lookup(ps, id).value.(currentStage := ContentStructurePending))
    ensures Lookup(FeedbackProcessed(ps, id), other) == Lookup(ps, other)
    ensures Lookup(Confirmed(ps, id), other) == Lookup(ps, other)
  {
    LookupAfterWithStage(ps, id, OutlineRegenerationPending);
    LookupAfterWithStage(ps, id, ContentStructurePending);
    LookupOtherAfterWithStage(ps, id, other, OutlineRegenerationPending);
    LookupOtherAfterWithStage(ps, id, other, ContentStructurePending);
  }

  /** Confirming twice leaves the table confirming once leaves. */
  lemma {:induction false} ConfirmTwiceIsConfirmOnce(ps: seq<TenderProject>, id: string)
    ensures Confirmed(Confirmed(ps, id), id) == Confirmed(ps, id)
  {
    WithStageIdempotent(ps, id, ContentStructurePending);
  }

  /** With no guard on the current stage the last operation decides the stage:
      feedback then confirmation is confirmation, and the other way round. */
  lemma {:induction false} LastOperationWins(ps: seq<TenderProject>, id: string)
    ensures Confirmed(FeedbackProcessed(ps, id), id) == Confirmed(ps, id)
    ensures FeedbackProcessed(Confirmed(ps, id), id) == FeedbackProcessed(ps, id)
    ensures Started(Confirmed(ps, id), id) == WithStage(ps, id, OutlineGenerationPending)
  {
    LastWriteWins(ps, id, OutlineRegenerationPending, ContentStructurePending);
    LastWriteWins(ps, id, ContentStructurePending, OutlineRegenerationPending);
    StartEndsOutlinePending(Confirmed(ps, id), id);
    LastWriteWins(ps, id, ContentStructurePending, OutlineGenerationPending);
  }

  /** The workflow service over a shared project store. Text extraction is
      the document processing collaborator, a function from the uploaded
      bytes to text. */
  class TenderWorkflowService {
    const projectService: TenderProjectService
    const extractText: seq<byte> -> string

    constructor (projectService: TenderProjectService, extractText: seq<byte> -> string)
      ensures this.projectService == projectService && this.extractText == extractText
    {
      this.projectService := projectService;
      this.extractText := extractText;
    }

    /** `StartProjectWorkflowAsync`: two stage writes around the text
        extraction, whose result decides nothing. */
    method StartProjectWorkflow(projectId: string, requirementPdfData: seq<byte>)
      modifies projectService
      ensures projectService.projects == Started(old(projectService.projects), projectId)
      ensures projectService.projects == WithStage(old(projectService.projects), projectId, OutlineGenerationPending)
      ensures projectService.stageWrites == old(projectService.stageWrites)
        + [StageWrite(projectId, DocumentProcessing), StageWrite(projectId, OutlineGenerationPending)]
    {
      StartEndsOutlinePending(projectService.projects, projectId);
      var _ := projectService.UpdateProjectStatus(projectId, DocumentProcessing);
      var extractedText := extractText(requirementPdfData);
      var _ := projectService.UpdateProjectStatus(projectId, OutlineGenerationPending);
    }

    /** `ProcessOutlineFeedbackAsync`: one stage write; the outline id and the
        feedback text are not kept. */
    method ProcessOutlineFeedback(projectId: string, outlineId: string, userFeedback: string)
      modifies projectService
      ensures projectService.projects == FeedbackProcessed(old(projectService.projects), projectId)
      ensures projectService.stageWrites == old(projectService.stageWrites)
        + [StageWrite(projectId, OutlineRegenerationPending)]
    {
      var _ := projectService.UpdateProjectStatus(projectId, OutlineRegenerationPending);
    }

    /** `ConfirmOutlineAsync`: one stage write. */
    method ConfirmOutline(projectId: string, outlineId: string)
      modifies projectService
      ensures projectService.projects == Confirmed(old(projectService.projects), projectId)
      ensures projectService.stageWrites == old(projectService.stageWrites)
        + [StageWrite(projectId, ContentStructurePending)]
    {
      var _ := projectService.UpdateProjectStatus(projectId, ContentStructurePending);
    }
  }
}
