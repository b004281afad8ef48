/**
 * The project registry's entries, as far as the listener reads them.
 * The files that define DeployProject, DeployPhase and FindPhase are not part of this model:
 * a project's phases are taken as a table keyed by phase name, and a missing phase is the
 * zero value of the Go struct (empty kind and name), which is what `None()` reports.
 */
module Projects {

  datatype DeployPhase = DeployPhase(kind: string, name: string)

  /** The zero value that FindPhase yields for a phase the project does not have. */
  const NO_PHASE := DeployPhase("", "")

  datatype DeployProject = DeployProject(
    id: string,
    repository: string,          // GitHubRepository()
    disableBranchDeploy: bool,
    phases: map<string, DeployPhase>)

  /** `pj.FindPhase(name)`. */
  function FindPhase(pj: DeployProject, name: string): DeployPhase {
    if name in pj.phases then pj.phases[name] else NO_PHASE
  }

  /** `!pj.FindPhase(name).None()`: the lookup gives something other than the zero phase. */
  predicate HasPhase(pj: DeployProject, name: string) {
    FindPhase(pj, name) != NO_PHASE
  }
}
