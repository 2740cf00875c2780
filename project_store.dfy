/** The in-memory tender project table: a list of project records, appended to
    on creation and updated in place when a project's stage changes. */
module ProjectStore {
  import opened Wrappers

  /** The stage every new project starts in. */
  const Initial := "Initial"

  /** One tender project. `createdTime` is the clock reading (in ticks) taken
      at creation; the two optional fields exist on the record but nothing in
      the core writes them, so they stay null. */
  datatype TenderProject = TenderProject(
    projectId: string,
    projectName: string,
    requirementDocument: string,
    currentStage: string,
    createdBy: string,
    createdTime: int,
    structuredRequirementsOutput: Option<string>,
    currentOutlineJson: Option<string>)

  /** One call of the stage update, as the store received it. */
  datatype StageWrite = StageWrite(projectId: string, stage: string)

  /** The position of the first record whose id is `id` (`FirstOrDefault`). */
  function FirstIndex(ps: seq<TenderProject>, id: string): (r: Option<nat>)
    ensures r.Some? ==> r.value < |ps| && ps[r.value].projectId == id
    ensures r.Some? ==> forall j :: 0 <= j < r.value ==> ps[j].projectId != id
    ensures r.None? <==> forall j :: 0 <= j < |ps| ==> ps[j].projectId != id
  {
    if |ps| == 0 then None
    else if ps[0].projectId == id then Some(0)
    else match FirstIndex(ps[1..], id)
      case None => None
      case Some(k) => Some(k + 1)
  }

  /** The record `GetProjectAsync` returns: the first one with that id, or null. */
  function Lookup(ps: seq<TenderProject>, id: string): (r: Option<TenderProject>)
    ensures r.None? <==> forall j :: 0 <= j < |ps| ==> ps[j].projectId != id
    ensures r.Some? ==> exists k :: 0 <= k < |ps| && ps[k] == r.value
                          && forall j :: 0 <= j < k ==> ps[j].projectId != id
    ensures r.Some? ==> r.value.projectId == id
  {
    match FirstIndex(ps, id)
    case None => None
    case Some(k) => Some(ps[k])
  }

  /** The table after `UpdateProjectStatusAsync(id, stage)`: the first record
      with that id gets the new stage; without such a record nothing changes. */
  function WithStage(ps: seq<TenderProject>, id: string, stage: string): (r: seq<TenderProject>)
    ensures |r| == |ps|
    ensures forall i :: 0 <= i < |ps| ==>
      r[i] == ps[i] || (FirstIndex(ps, id) == Some(i) && r[i] == ps[i].(currentStage := stage))
    ensures forall i :: 0 <= i < |ps| && FirstIndex(ps, id) == Some(i) ==> r[i].currentStage == stage
    ensures (forall j :: 0 <= j < |ps| ==> ps[j].projectId != id) ==> r == ps
  {
    match FirstIndex(ps, id)
    case None => ps
    case Some(k) => ps[k := ps[k].(currentStage := stage)]
  }

  predicate SameIds(ps: seq<TenderProject>, qs: seq<TenderProject>) {
    |ps| == |qs| && forall i :: 0 <= i < |ps| ==> ps[i].projectId == qs[i].projectId
  }

  /** The lookup depends on the ids alone. */
  lemma {:induction false} FirstIndexOnIds(ps: seq<TenderProject>, qs: seq<TenderProject>, id: string)
    requires SameIds(ps, qs)
    ensures FirstIndex(ps, id) == FirstIndex(qs, id)
  {
    if |ps| > 0 && ps[0].projectId != id {
      FirstIndexOnIds(ps[1..], qs[1..], id);
    }
  }

  /** A stage update keeps the length and every id, so it never moves or loses a record. */
  lemma WithStageKeepsIds(ps: seq<TenderProject>, id: string, stage: string)
    ensures SameIds(WithStage(ps, id, stage), ps)
  {
  }

  /** Only the first record with that id changes, and in it only the stage;
      when no record has that id the table is unchanged. */
  lemma WithStageChangesOnlyTarget(ps: seq<TenderProject>, id: string, stage: string, i: nat)
    requires i < |ps|
    ensures |WithStage(ps, id, stage)| == |ps|
    ensures FirstIndex(ps, id) != Some(i) ==> WithStage(ps, id, stage)[i] == ps[i]
    ensures FirstIndex(ps, id) == Some(i) ==>
      var q := WithStage(ps, id, stage)[i];
      q.currentStage == stage && q.projectId == ps[i].projectId
      && q.projectName == ps[i].projectName && q.requirementDocument == ps[i].requirementDocument
      && q.createdBy == ps[i].createdBy && q.createdTime == ps[i].createdTime
      && q.structuredRequirementsOutput == ps[i].structuredRequirementsOutput
      && q.currentOutlineJson == ps[i].currentOutlineJson
  {
  }

  /** An update of a missing id leaves the table as it was. */
  lemma WithStageMissing(ps: seq<TenderProject>, id: string, stage: string)
    requires forall j :: 0 <= j < |ps| ==> ps[j].projectId != id
    ensures WithStage(ps, id, stage) == ps
  {
  }

  /** After a successful update the lookup sees the new stage, and the record
      it returns is the old one with only the stage replaced. */
  lemma {:induction false} LookupAfterWithStage(ps: seq<TenderProject>, id: string, stage: string)
    requires Lookup(ps, id).Some?
    ensures Lookup(WithStage(ps, id, stage), id) == Some(Lookup(ps, id).value.(currentStage := stage))
  {
    WithStageKeepsIds(ps, id, stage);
    FirstIndexOnIds(WithStage(ps, id, stage), ps, id);
  }

  /** The update of one id does not disturb the lookup of any other id. */
  lemma {:induction false} LookupOtherAfterWithStage(ps: seq<TenderProject>, id: string, other: string, stage: string)
    requires other != id
    ensures Lookup(WithStage(ps, id, stage), other) == Lookup(ps, other)
  {
    WithStageKeepsIds(ps, id, stage);
    FirstIndexOnIds(WithStage(ps, id, stage), ps, other);
  }

  /** Two updates of the same id: the later one wins, whatever the earlier one wrote. */
  lemma {:induction false} LastWriteWins(ps: seq<TenderProject>, id: string, first: string, second: string)
    ensures WithStage(WithStage(ps, id, first), id, second) == WithStage(ps, id, second)
  {
    WithStageKeepsIds(ps, id, first);
    FirstIndexOnIds(WithStage(ps, id, first), ps, id);
  }

  /** Applying the same update twice gives the table applying it once gives. */
  lemma {:induction false} WithStageIdempotent(ps: seq<TenderProject>, id: string, stage: string)
    ensures WithStage(WithStage(ps, id, stage), id, stage) == WithStage(ps, id, stage)
  {
    LastWriteWins(ps, id, stage, stage);
  }

  /** The project table. `stageWrites` records every stage update the store
      was asked for, in order, found or not; it exists only for the proofs. */
  class TenderProjectService {
    var projects: seq<TenderProject>
    ghost var stageWrites: seq<StageWrite>

    constructor ()
      ensures projects == [] && stageWrites == []
    {
      projects := [];
      stageWrites := [];
    }

    /** `CreateProjectAsync`: the new id and the clock reading are supplied by the caller. */
    method CreateProject(projectName: string, createdBy: string, newId: string, now: int)
      returns (project: TenderProject)
      modifies this
      ensures project.projectId == newId && project.projectName == projectName
      ensures project.createdBy == createdBy && project.createdTime == now
      ensures project.currentStage == Initial && project.requirementDocument == ""
      ensures project.structuredRequirementsOutput.None? && project.currentOutlineJson.None?
      ensures GetAllProjects() == old(GetAllProjects()) + [project]
      ensures stageWrites == old(stageWrites)
    {
      project := TenderProject(newId, projectName, "", Initial, createdBy, now, None, None);
      projects := projects + [project];
    }

    /** `GetProjectAsync`: the first record with that id, or null. */
    function GetProject(projectId: string): (r: Option<TenderProject>)
      reads this
      ensures r.None? <==> forall j :: 0 <= j < |projects| ==> projects[j].projectId != projectId
      ensures r.Some? ==> exists k :: 0 <= k < |projects| && projects[k] == r.value
                            && forall j :: 0 <= j < k ==> projects[j].projectId != projectId
      ensures r.Some? ==> r.value.projectId == projectId
    {
      Lookup(projects, projectId)
    }

    /** `GetAllProjectsAsync`: the records in the order they were added. */
    function GetAllProjects(): (r: seq<TenderProject>)
      reads this
      ensures r == projects
    {
      projects
    }

    /** `UpdateProjectStatusAsync`: assigns the stage of the first record with
        that id and answers whether there was one. */
    method UpdateProjectStatus(projectId: string, newStatus: string) returns (found: bool)
      modifies this
      ensures found <==> exists j :: 0 <= j < |old(projects)| && old(projects)[j].projectId == projectId
      ensures projects == WithStage(old(projects), projectId, newStatus)
      ensures !found ==> projects == old(projects)
      ensures found ==> GetProject(projectId) == Some(old(GetProject(projectId)).value.(currentStage := newStatus))
      ensures stageWrites == old(stageWrites) + [StageWrite(projectId, newStatus)]
    {
      stageWrites := stageWrites + [StageWrite(projectId, newStatus)];
      var k := FirstIndex(projects, projectId);
      if k.Some? {
        LookupAfterWithStage(projects, projectId, newStatus);
        projects := projects[k.value := projects[k.value].(currentStage := newStatus)];
        found := true;
      } else {
        found := false;
      }
    }
  }
}
