/** The Project collection's schema (models/Project.ts). */
module ProjectModel {
  import opened Wrappers
  import opened Documents

  const ProjectStatuses: seq<string> := ["Planning", "In Progress", "Completed"]
  const DefaultStatus: string := "Planning"
  const DefaultProgress: int := 0

  datatype Project = Project(
    id: Id,
    name: Option<string>,
    description: Option<string>,
    status: Option<string>,
    progress: Option<int>,
    userId: Option<Id>)

  /** The fields a request body may give a new project. */
  datatype ProjectInput = ProjectInput(
    name: Option<string>,
    description: Option<string>,
    status: Option<string>,
    progress: Option<int>,
    userId: Option<Id>)

  /** `min: 0, max: 100`, checked only when the field is present. */
  predicate ProgressInRange(f: Option<int>) {
    f.Some? ==> 0 <= f.value <= 100
  }

  /**
   * ProjectSchema: name and userId are required, status is one of
   * ProjectStatuses, progress is between 0 and 100.
   */
  predicate ValidProject(p: Project) {
    && RequiredString(p.name)
    && p.userId.Some?
    && EnumOk(p.status, ProjectStatuses)
    && ProgressInRange(p.progress)
  }

  /** `new Project(input)`: absent status and progress take their defaults. */
  function NewProject(id: Id, input: ProjectInput): (r: Project)
    ensures r.id == id && r.name == input.name && r.description == input.description
    ensures r.userId == input.userId
    ensures r.status == Some(if input.status.Some? then input.status.value else DefaultStatus)
    ensures r.progress == Some(if input.progress.Some? then input.progress.value else DefaultProgress)
    ensures ValidProject(r) <==>
              RequiredString(input.name) && input.userId.Some? &&
              EnumOk(input.status, ProjectStatuses) && ProgressInRange(input.progress)
  {
    Project(id, input.name, input.description,
            Some(input.status.GetOr(DefaultStatus)),
            Some(input.progress.GetOr(DefaultProgress)),
            input.userId)
  }

  /** A valid project's status and progress, when present, are in their ranges. */
  lemma ValidProjectRanges(p: Project)
    requires ValidProject(p)
    ensures p.status.Some? ==> p.status.value in ProjectStatuses
    ensures p.progress.Some? ==> 0 <= p.progress.value <= 100
  {
  }

  /** A project without name or owner is never valid, whatever else it holds. */
  lemma NameAndOwnerRequired(p: Project)
    requires !RequiredString(p.name) || p.userId.None?
    ensures !ValidProject(p)
  {
  }

  /** `findById` on projects: the first project with this id, or None. */
  function FindProject(projects: seq<Project>, id: Id): (r: Option<Project>)
    ensures r.Some? ==> r.value in projects && r.value.id == id
    ensures r.None? ==> forall j :: 0 <= j < |projects| ==> projects[j].id != id
  {
    if projects == [] then None
    else if projects[0].id == id then Some(projects[0])
    else FindProject(projects[1..], id)
  }
}
