/** The paths Activation manages (packages/core/src/activation.ts:17-46). */
module ActivationScope {
  import opened Foundations
  import opened MutationModel

  const AGENTS: Path := "AGENTS.md"
  const SKILL_DIRECTORY: Path := ".agents/skills/praxisbound"
  const SKILL: Path := SKILL_DIRECTORY + "/SKILL.md"
  const WORKFLOW: Path := SKILL_DIRECTORY + "/story-development.md"
  const SNAPSHOT: Path := SKILL_DIRECTORY + "/.praxisbound-snapshot"
  const ADOPTION: Path := "specs/.praxisbound-adoption"

  const LEGACY_DIRECTORY: Path := ".agents/skills/forgeflow"
  const LEGACY_SKILL: Path := LEGACY_DIRECTORY + "/SKILL.md"
  const LEGACY_WORKFLOW: Path := LEGACY_DIRECTORY + "/story-development.md"
  const LEGACY_SNAPSHOT: Path := LEGACY_DIRECTORY + "/.forgeflow-snapshot"

  const DESTINATIONS: seq<Path> := [AGENTS, SKILL, WORKFLOW, SNAPSHOT]
  const LEGACY_DESTINATIONS: seq<Path> := [LEGACY_SKILL, LEGACY_WORKFLOW, LEGACY_SNAPSHOT]

  /** The directories a run may create: neither the adoption directories nor the legacy one. */
  const CREATED_DIRECTORIES: seq<Path> := [".agents", ".agents/skills", SKILL_DIRECTORY]
  const DIRECTORIES: seq<Path> := ["specs", "specs/stories"] + CREATED_DIRECTORIES + [LEGACY_DIRECTORY]

  const OBSERVED_FILES: seq<Path> :=
    [AGENTS, ADOPTION, SKILL, WORKFLOW, SNAPSHOT] + LEGACY_DESTINATIONS

  lemma ScopeLengths()
    ensures |"specs"| == 5 && |"specs/stories"| == 13 && |".agents"| == 7 && |".agents/skills"| == 14
    ensures |SKILL_DIRECTORY| == 26 && |LEGACY_DIRECTORY| == 24
  {
  }

  lemma FileLengths()
    ensures |AGENTS| == 9 && |ADOPTION| == 27 && |SKILL| == 35 && |WORKFLOW| == 47 && |SNAPSHOT| == 48
  {
    ScopeLengths();
  }

  lemma LegacyLengths()
    ensures |LEGACY_SKILL| == 33 && |LEGACY_WORKFLOW| == 45 && |LEGACY_SNAPSHOT| == 44
  {
    ScopeLengths();
  }

  const SCOPE: seq<Path> := DIRECTORIES + OBSERVED_FILES

  lemma ScopeDiffers()
    ensures Distinct(SCOPE)
    ensures forall path <- SCOPE :: |path| <= 48
  {
    ScopeLengths();
    FileLengths();
    LegacyLengths();
    DistinctByLength(SCOPE, [5, 13, 7, 14, 26, 24, 9, 27, 35, 47, 48, 33, 45, 44]);
  }
}
