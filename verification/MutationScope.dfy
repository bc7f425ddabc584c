/** The directories a run may create (getInitObservationScope in init.ts, packages/core/src/activation.ts:17-46). */
module MutationScope {
  import opened MutationModel
  import opened ActivationScope

  function Directories(mode: InitMode): seq<Path> {
    if mode.Upgrade? then ["specs", "specs/stories", "specs/stories/_template"]
    else ["specs", "specs/stories", "specs/stories/_template", "guidance"]
  }

  function RunDirectories(plan: Plan): seq<Path> {
    match plan.body.operation
    case Init(mode) => Directories(mode)
    case Activation(_) => CREATED_DIRECTORIES
  }
}
