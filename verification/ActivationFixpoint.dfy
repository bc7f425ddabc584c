/**
 Activation settles: planning again over what a committed run installed finds nothing to do,
 and the text of AGENTS.md outside the managed section survives
 (packages/core/src/activation.ts:605-1011).
 */
module ActivationFixpoint {
  import opened Foundations
  import opened MutationModel
  import opened StagePaths
  import opened TextPatterns
  import opened MarkerSpan
  import opened ActivationScope
  import opened ActivationSnapshot
  import opened ActivationAgents
  import opened ActivationPlan
  import opened ActivationPlanned
  import Utf8

  // ---------------------------------------------------------------------
  // The packaged block
  // ---------------------------------------------------------------------

  lemma SliceContains(text: Bytes, from: nat, to: nat, needle: Bytes)
    requires from <= to <= |text| && Contains(text[from..to], needle)
    ensures Contains(text, needle)
  {
    var slice := text[from..to];
    var k :| 0 <= k <= |slice| && OccursAt(slice, needle, k);
    forall i | 0 <= i < |needle| ensures text[from + k + i] == needle[i] {
      assert slice[k..k + |needle|][i] == slice[k + i];
    }
    assert text[from + k..from + k + |needle|] == needle;
    assert OccursAt(text, needle, from + k);
  }

  lemma TextContains(raw: Bytes, needle: Bytes)
    requires Contains(Text(raw), needle)
    ensures Contains(raw, needle)
  {
    var whole := WithoutLast(raw, '\n');
    if Text(raw) != whole {
      SliceContains(whole, 0, |whole| - 1, needle);
    }
    if whole != raw {
      SliceContains(raw, 0, |raw| - 1, needle);
    }
  }

  /** A text without the prefix has no line with it. */
  lemma {:induction false} NoLineContains(markers: Markers, text: Bytes, position: nat)
    requires position <= |text| && !Contains(text, markers.prefix)
    ensures Unmarked(markers, LinesFrom(text, position))
    decreases |text| - position
  {
    if position < |text| {
      var stop := LineStop(text, position);
      NoLineContains(markers, text, stop);
      if Contains(Text(text[position..stop]), markers.prefix) {
        TextContains(text[position..stop], markers.prefix);
        SliceContains(text, position, stop, markers.prefix);
      }
    }
  }

  /** A byte order mark hides no marker. */
  lemma MarkHidesNothing(bytes: Bytes, prefix: Bytes)
    requires Utf8.StartsWithMark(bytes) && prefix != "" && prefix[0] == '<' && Contains(bytes, prefix)
    ensures Contains(bytes[3..], prefix)
  {
    var k :| 0 <= k <= |bytes| && OccursAt(bytes, prefix, k);
    assert bytes[k..k + |prefix|][0] == bytes[k] == '<';
    assert k >= 3;
    assert bytes[3..][k - 3..k - 3 + |prefix|] == bytes[k..k + |prefix|];
    assert OccursAt(bytes[3..], prefix, k - 3);
  }

  lemma BlockFacts(bytes: Bytes)
    requires ValidBlock(bytes)
    ensures WholeLines(bytes) && bytes != "" && Unmarked(CURRENT, LinesOf(bytes)) && Utf8.Valid(bytes)
  {
    CurrentShape();
    if Contains(bytes, CURRENT.prefix) && Utf8.StartsWithMark(bytes) {
      MarkHidesNothing(bytes, CURRENT.prefix);
    }
    NoLineContains(CURRENT, bytes, 0);
  }

  // ---------------------------------------------------------------------
  // What a request has established
  // ---------------------------------------------------------------------

  lemma AdoptionIsValid(paths: seq<PathObservation>)
    requires AdoptionOf(paths).Some?
    ensures AdoptionOf(paths).value == "unknown" || VersionText(AdoptionOf(paths).value)
  {
  }

  lemma DesiredFieldsValid(source: Source, paths: seq<PathObservation>)
    requires ValidSource(source) && AdoptionProblem(paths).None?
    ensures ValidFields(DesiredFields(source, paths))
  {
    AdoptionIsValid(paths);
  }

  /** An accepted request names the one section that may be replaced. */
  lemma RequestReplaces(paths: seq<PathObservation>) returns (span: Span)
    requires OwnershipProblem(paths).None? && SectionsProblem(paths).None?
    ensures Replaceable(AgentsOf(paths), ReplacedMarkers(paths), span)
  {
    MarkersAreSound();
    var markers := ReplacedMarkers(paths);
    span := SpanOf(markers, AgentsOf(paths)).value;
    SpanWithin(markers, AgentsOf(paths), span);
  }

  lemma DesiredAgentsIs(source: Source, paths: seq<PathObservation>, span: Span)
    requires Replaceable(AgentsOf(paths), ReplacedMarkers(paths), span)
    ensures DesiredAgents(source, paths) == PlaceBlock(AgentsOf(paths), span, DesiredBlock(source, paths))
  {
  }

  /** Everything about the new AGENTS.md that planning again will look at. */
  ghost predicate BlockSettled(source: Source, paths: seq<PathObservation>) {
    var desired, block := DesiredAgents(source, paths), DesiredBlock(source, paths);
    && SpanOf(CURRENT, desired).Some? && SpanOf(CURRENT, desired).value.Section?
    && Within(SpanOf(CURRENT, desired).value, desired)
    && SectionBytes(desired, SpanOf(CURRENT, desired).value) == block
    && PlaceBlock(desired, SpanOf(CURRENT, desired).value, block) == desired
    && (SpanOf(LEGACY, desired) == Some(Absent) <==> Unmarked(LEGACY, LinesOf(source.agentBlock.bytes)))
  }

  lemma AgentsSettle(source: Source, paths: seq<PathObservation>)
    requires FirstProblem(source, paths).None?
    ensures BlockSettled(source, paths)
    ensures Erase(CURRENT, DesiredAgents(source, paths)) == Erase(ReplacedMarkers(paths), AgentsOf(paths))
  {
    Screened(source, paths);
    var span := RequestReplaces(paths);
    BlockFacts(source.agentBlock.bytes);
    DesiredFieldsValid(source, paths);
    DesiredAgentsIs(source, paths, span);
    BlockStays(AgentsOf(paths), ReplacedMarkers(paths), span, DesiredFields(source, paths), source.agentBlock.bytes,
               DesiredBlock(source, paths));
  }

  /** Whatever is planned, the text outside the managed section stays byte for byte. */
  lemma UserTextSurvives(rootIdentity: Identity, source: Source, paths: seq<PathObservation>, seed: string)
    requires ValidSeed(seed)
    requires var result := PlanActivation(rootIdentity, source, paths, seed); result.Previewed? || result.Unchanged?
    ensures var payloads := PlanActivation(rootIdentity, source, paths, seed).payloads;
      && payloads != [] && payloads[0].path == AGENTS
      && Erase(CURRENT, payloads[0].bytes) == Erase(ReplacedMarkers(paths), AgentsOf(paths))
  {
    Problems(rootIdentity, source, paths, seed);
    AgentsSettle(source, paths);
  }

  // ---------------------------------------------------------------------
  // The installed skill
  // ---------------------------------------------------------------------

  lemma RelinkedKeepsText(text: Bytes, from: nat)
    requires from <= |text|
    ensures Relinked(text, from) == "" <==> from == |text|
  {
  }

  predicate OnlyMark(bytes: Bytes) {
    |bytes| == 3 && Utf8.StartsWithMark(bytes)
  }

  /** The installed skill is empty only when the packaged one is a bare byte order mark. */
  lemma SkillIsThere(source: Source)
    requires ValidSource(source)
    ensures DesiredSkill(source) == "" <==> OnlyMark(source.skill.bytes)
  {
    var bytes := source.skill.bytes;
    var text := Utf8.Decode(bytes).value;
    RelinkedKeepsText(text, 0);
  }

  // ---------------------------------------------------------------------
  // Looking again
  // ---------------------------------------------------------------------

  predicate PlainDirectory(entry: PathObservation) {
    && entry.kind == Directory && entry.readable == Some(true) && entry.searchable == Some(true)
    && entry.identity.Some? && entry.members.None? && entry.digest.None?
  }

  predicate SkillDirectory(entry: PathObservation) {
    && entry.kind == Directory && entry.readable == Some(true) && entry.searchable == Some(true)
    && entry.identity.Some? && entry.members == Some(MEMBERS) && entry.digest == Some(MembersDigest(MEMBERS))
  }

  /** An observation of the tree that a committed run leaves. */
  ghost predicate ObservesInstalled(source: Source, paths: seq<PathObservation>, later: seq<PathObservation>) {
    && Covered(later)
    && PlainDirectory(EntryAt(later, "specs")) && PlainDirectory(EntryAt(later, "specs/stories"))
    && PlainDirectory(EntryAt(later, ".agents")) && PlainDirectory(EntryAt(later, ".agents/skills"))
    && SkillDirectory(EntryAt(later, SKILL_DIRECTORY))
    && EntryAt(later, LEGACY_DIRECTORY) == Plain(LEGACY_DIRECTORY, Missing)
    && (forall path <- LEGACY_DESTINATIONS :: EntryAt(later, path) == Plain(path, Missing))
    && EntryAt(later, ADOPTION) == EntryAt(paths, ADOPTION)
    && (forall payload <- Payloads(source, paths) ::
          SafeFile(EntryAt(later, payload.path)) && EntryAt(later, payload.path).text == Some(payload.bytes))
  }

  /** The four installed files, as observed later. */
  ghost predicate HoldsFiles(later: seq<PathObservation>, agents: Bytes, skill: Bytes, workflow: Bytes, snapshot: Bytes) {
    && SafeFile(EntryAt(later, AGENTS)) && EntryAt(later, AGENTS).text == Some(agents)
    && SafeFile(EntryAt(later, SKILL)) && EntryAt(later, SKILL).text == Some(skill)
    && SafeFile(EntryAt(later, WORKFLOW)) && EntryAt(later, WORKFLOW).text == Some(workflow)
    && SafeFile(EntryAt(later, SNAPSHOT)) && EntryAt(later, SNAPSHOT).text == Some(snapshot)
  }

  lemma FilesFrom(paths: seq<PathObservation>, later: seq<PathObservation>, agents: Bytes, skill: Bytes, workflow: Bytes,
                  snapshot: Bytes, skillMode: Mode, workflowMode: Mode)
    requires forall payload <- PayloadsFrom(paths, agents, skill, workflow, snapshot, skillMode, workflowMode) ::
      SafeFile(EntryAt(later, payload.path)) && EntryAt(later, payload.path).text == Some(payload.bytes)
    ensures HoldsFiles(later, agents, skill, workflow, snapshot)
  {
    var payloads := PayloadsFrom(paths, agents, skill, workflow, snapshot, skillMode, workflowMode);
    assert payloads[0] in payloads && payloads[1] in payloads && payloads[2] in payloads && payloads[3] in payloads;
  }

  lemma InstalledFiles(source: Source, paths: seq<PathObservation>, later: seq<PathObservation>)
    requires ObservesInstalled(source, paths, later)
    ensures HoldsFiles(later, DesiredAgents(source, paths), DesiredSkill(source), source.workflow.bytes,
                       DesiredSnapshot(source, paths))
  {
    FilesFrom(paths, later, DesiredAgents(source, paths), DesiredSkill(source), source.workflow.bytes,
              DesiredSnapshot(source, paths), source.skill.mode, source.workflow.mode);
  }

  lemma InPlaceFrom(paths: seq<PathObservation>, later: seq<PathObservation>, agents: Bytes, skill: Bytes, workflow: Bytes,
                    snapshot: Bytes, skillMode: Mode, workflowMode: Mode)
    requires HoldsFiles(later, agents, skill, workflow, snapshot)
    ensures AllInPlace(later, PayloadsFrom(paths, agents, skill, workflow, snapshot, skillMode, workflowMode))
  {
  }

  lemma MembersAreValid()
    ensures ValidMembers(MEMBERS)
  {
    assert NameBefore(MEMBERS[0], MEMBERS[1]) && NameBefore(MEMBERS[1], MEMBERS[2]);
    SnapshotName();
    SkillName();
    WorkflowName();
  }

  lemma SnapshotName()
    ensures ValidName(".praxisbound-snapshot")
  {
  }

  lemma SkillName()
    ensures ValidName("SKILL.md")
  {
  }

  lemma WorkflowName()
    ensures ValidName("story-development.md")
  {
  }

  lemma PlainIsFine(path: Path, entry: PathObservation)
    requires PlainDirectory(entry) && path != SKILL_DIRECTORY && path != LEGACY_DIRECTORY
    ensures DirectoryProblemAt(path, entry).None?
  {
  }

  lemma SkillIsFine(entry: PathObservation)
    requires SkillDirectory(entry)
    ensures DirectoryProblemAt(SKILL_DIRECTORY, entry).None?
  {
    MembersAreValid();
  }

  lemma EveryDirectory(later: seq<PathObservation>)
    requires DirectoryProblemAt("specs", EntryAt(later, "specs")).None?
    requires DirectoryProblemAt("specs/stories", EntryAt(later, "specs/stories")).None?
    requires DirectoryProblemAt(".agents", EntryAt(later, ".agents")).None?
    requires DirectoryProblemAt(".agents/skills", EntryAt(later, ".agents/skills")).None?
    requires DirectoryProblemAt(SKILL_DIRECTORY, EntryAt(later, SKILL_DIRECTORY)).None?
    requires DirectoryProblemAt(LEGACY_DIRECTORY, EntryAt(later, LEGACY_DIRECTORY)).None?
    ensures DirectoriesProblem(later, DIRECTORIES).None?
  {
    forall path | path in DIRECTORIES ensures DirectoryProblemAt(path, EntryAt(later, path)).None? {
    }
  }

  lemma DirectoriesFine(source: Source, paths: seq<PathObservation>, later: seq<PathObservation>)
    requires ObservesInstalled(source, paths, later)
    ensures DirectoriesProblem(later, DIRECTORIES).None?
  {
    ScopeLengths();
    PlainIsFine("specs", EntryAt(later, "specs"));
    PlainIsFine("specs/stories", EntryAt(later, "specs/stories"));
    PlainIsFine(".agents", EntryAt(later, ".agents"));
    PlainIsFine(".agents/skills", EntryAt(later, ".agents/skills"));
    SkillIsFine(EntryAt(later, SKILL_DIRECTORY));
    EveryDirectory(later);
  }

  lemma AdoptionStays(paths: seq<PathObservation>, later: seq<PathObservation>)
    requires EntryAt(later, ADOPTION) == EntryAt(paths, ADOPTION)
    ensures AdoptionOf(later) == AdoptionOf(paths)
    ensures AdoptionProblem(paths).None? ==> AdoptionProblem(later).None?
  {
  }

  lemma AgentsAreThere(source: Source, paths: seq<PathObservation>)
    requires BlockSettled(source, paths)
    ensures DesiredAgents(source, paths) != ""
  {
    BlockIsWhole(DesiredFields(source, paths), source.agentBlock.bytes);
  }

  lemma SnapshotIsThere(source: Source, paths: seq<PathObservation>)
    ensures DesiredSnapshot(source, paths) != ""
  {
  }

  lemma AdoptedWith(later: seq<PathObservation>, agents: Bytes)
    requires PlainDirectory(EntryAt(later, "specs")) && PlainDirectory(EntryAt(later, "specs/stories"))
    requires SafeFile(EntryAt(later, AGENTS)) && EntryAt(later, AGENTS).text == Some(agents) && agents != ""
    ensures AdoptedProblem(later).None?
  {
  }

  lemma AdoptedFine(source: Source, paths: seq<PathObservation>, later: seq<PathObservation>)
    requires ObservesInstalled(source, paths, later) && BlockSettled(source, paths)
    ensures AdoptedProblem(later).None?
  {
    InstalledFiles(source, paths, later);
    AgentsAreThere(source, paths);
    AdoptedWith(later, DesiredAgents(source, paths));
  }

  lemma OwnershipIff(later: seq<PathObservation>, agents: Bytes, skill: Bytes, workflow: Bytes, snapshot: Bytes)
    requires HoldsFiles(later, agents, skill, workflow, snapshot) && workflow != "" && snapshot != ""
    requires SkillDirectory(EntryAt(later, SKILL_DIRECTORY))
    requires EntryAt(later, LEGACY_DIRECTORY) == Plain(LEGACY_DIRECTORY, Missing)
    requires forall path <- LEGACY_DESTINATIONS :: EntryAt(later, path) == Plain(path, Missing)
    ensures OwnershipProblem(later).None? <==> skill != ""
  {
    assert DESTINATIONS[1..] == [SKILL, WORKFLOW, SNAPSHOT];
    assert Complete(later, true, DESTINATIONS[1..]) <==> skill != "" by {
      assert DESTINATIONS[1..][0] in DESTINATIONS[1..];
    }
    assert UnsafeFile(later, DESTINATIONS[1..]).None?;
  }

  lemma SectionsWith(later: seq<PathObservation>, agents: Bytes)
    requires AgentsOf(later) == agents && Installed(later) && !LegacyInstalled(later)
    requires SpanOf(CURRENT, agents).Some? && SpanOf(CURRENT, agents).value.Section?
    ensures SectionsProblem(later).None? <==> SpanOf(LEGACY, agents) == Some(Absent)
  {
  }

  lemma AgentsLater(source: Source, paths: seq<PathObservation>, later: seq<PathObservation>)
    requires ObservesInstalled(source, paths, later)
    ensures AgentsOf(later) == DesiredAgents(source, paths) && Installed(later) && !LegacyInstalled(later)
  {
    InstalledFiles(source, paths, later);
  }

  lemma SectionsIff(source: Source, paths: seq<PathObservation>, later: seq<PathObservation>)
    requires ObservesInstalled(source, paths, later) && BlockSettled(source, paths)
    ensures SectionsProblem(later).None? <==> Unmarked(LEGACY, LinesOf(source.agentBlock.bytes))
  {
    AgentsLater(source, paths, later);
    SectionsWith(later, DesiredAgents(source, paths));
  }

  lemma {:induction false} BlockDecodes(fields: Fields, agentBlock: Bytes)
    requires ValidFields(fields) && Utf8.Valid(agentBlock)
    ensures Utf8.Decode(BlockBytes(fields, agentBlock)) == Some(BlockBytes(fields, agentBlock))
  {
    FrameIsAscii();
    IdentityIsAscii(fields);
    ConcatValid(agentBlock, EndRaw());
    ConcatValid(IdentityRaw(fields), agentBlock + EndRaw());
    ConcatValid(BeginRaw(), IdentityRaw(fields) + (agentBlock + EndRaw()));
    StartsWithBracket(IdentityRaw(fields) + (agentBlock + EndRaw()));
  }

  lemma ConcatValid(a: Bytes, b: Bytes)
    requires Utf8.Valid(a) && Utf8.Valid(b)
    ensures Utf8.Valid(a + b)
  {
    Utf8.ValidConcat(a, b);
  }

  lemma StartsWithBracket(rest: Bytes)
    ensures !Utf8.StartsWithMark(BeginRaw() + rest)
  {
    CurrentShape();
    assert (BeginRaw() + rest)[0] == '<';
  }

  lemma FrameIsAscii()
    ensures Utf8.Valid(BeginRaw()) && Utf8.Valid(EndRaw())
  {
    BeginIsAscii();
    EndIsAscii();
    AsciiConcat(CURRENT.begin, "\n");
    AsciiConcat(CURRENT.end, "\n");
    Utf8.AsciiDecodes(BeginRaw());
    Utf8.AsciiDecodes(EndRaw());
  }

  lemma BeginIsAscii()
    ensures Utf8.Ascii(CURRENT.begin)
  {
  }

  lemma EndIsAscii()
    ensures Utf8.Ascii(CURRENT.end)
  {
  }

  lemma AsciiConcat(a: Bytes, b: Bytes)
    requires Utf8.Ascii(a) && Utf8.Ascii(b)
    ensures Utf8.Ascii(a + b)
  {
  }

  lemma TailIsAscii(fields: Fields)
    requires FieldText(fields.adoption)
    ensures Utf8.Ascii(AdoptionTail(fields))
  {
    FieldIsLine(fields.adoption);
    AsciiConcat(fields.adoption, " -->");
    AsciiConcat(" adoption=", fields.adoption + " -->");
  }

  lemma IdentityIsAscii(fields: Fields)
    requires ValidFields(fields)
    ensures Utf8.Valid(IdentityRaw(fields))
  {
    ValidFieldsAreText(fields);
    TailIsAscii(fields);
    FieldIsLine(fields.revision);
    AsciiConcat(fields.revision, AdoptionTail(fields));
    AsciiConcat(" revision=", fields.revision + AdoptionTail(fields));
    FieldIsLine(fields.version);
    AsciiConcat(fields.version, " revision=" + (fields.revision + AdoptionTail(fields)));
    AsciiConcat("<!-- snapshot version=", IdentityTail(fields));
    AsciiConcat(IdentityLine(fields), "\n");
    Utf8.AsciiDecodes(IdentityRaw(fields));
  }

  lemma BlockNamesIdentity(source: Source, paths: seq<PathObservation>)
    requires ValidSource(source) && AdoptionProblem(paths).None?
    ensures NamesIdentity(DesiredBlock(source, paths), DesiredFields(source, paths))
  {
    DesiredFieldsValid(source, paths);
    BlockFacts(source.agentBlock.bytes);
    BlockDecodes(DesiredFields(source, paths), source.agentBlock.bytes);
    BlockHasIdentity(DesiredFields(source, paths), source.agentBlock.bytes);
  }

  lemma SnapshotAgrees(source: Source, paths: seq<PathObservation>)
    requires ValidSource(source) && AdoptionProblem(paths).None?
    ensures InstalledFields(DesiredSnapshot(source, paths), DesiredSkill(source), source.workflow.bytes,
                            DesiredBlock(source, paths)) == Some(DesiredFields(source, paths))
  {
    DesiredFieldsValid(source, paths);
    SnapshotRoundTrip(DesiredSnapshot(source, paths), DesiredFields(source, paths), DesiredSkill(source),
                      source.workflow.bytes, DesiredBlock(source, paths));
  }

  lemma NoInstalledProblem(later: seq<PathObservation>, agents: Bytes, skill: Bytes, workflow: Bytes, snapshot: Bytes,
                           block: Bytes, fields: Fields)
    requires HoldsFiles(later, agents, skill, workflow, snapshot) && FoundSection(CURRENT, agents) == block
    requires InstalledFields(snapshot, skill, workflow, block) == Some(fields) && NamesIdentity(block, fields)
    ensures InstalledProblem(later).None?
  {
  }

  lemma SectionIsBlock(source: Source, paths: seq<PathObservation>)
    requires BlockSettled(source, paths)
    ensures FoundSection(CURRENT, DesiredAgents(source, paths)) == DesiredBlock(source, paths)
  {
  }

  lemma InstallationFine(source: Source, paths: seq<PathObservation>, later: seq<PathObservation>)
    requires ObservesInstalled(source, paths, later) && BlockSettled(source, paths)
    requires ValidSource(source) && AdoptionProblem(paths).None?
    ensures InstalledProblem(later).None? && LegacyProblem(later).None?
  {
    InstalledFiles(source, paths, later);
    SnapshotAgrees(source, paths);
    BlockNamesIdentity(source, paths);
    SectionIsBlock(source, paths);
    NoInstalledProblem(later, DesiredAgents(source, paths), DesiredSkill(source), source.workflow.bytes,
                       DesiredSnapshot(source, paths), DesiredBlock(source, paths), DesiredFields(source, paths));
  }

  /** The second look finds a problem exactly when the skill is missing or the block carries a legacy marker. */
  lemma ProblemsLater(source: Source, paths: seq<PathObservation>, later: seq<PathObservation>)
    requires FirstProblem(source, paths).None? && ObservesInstalled(source, paths, later)
    ensures FirstProblem(source, later).None? <==>
            !OnlyMark(source.skill.bytes) && Unmarked(LEGACY, LinesOf(source.agentBlock.bytes))
  {
    Screened(source, paths);
    AgentsSettle(source, paths);
    InstalledFiles(source, paths, later);
    SkillIsThere(source);
    SnapshotIsThere(source, paths);
    DirectoriesFine(source, paths, later);
    AdoptedFine(source, paths, later);
    AdoptionStays(paths, later);
    OwnershipIff(later, DesiredAgents(source, paths), DesiredSkill(source), source.workflow.bytes, DesiredSnapshot(source, paths));
    SectionsIff(source, paths, later);
    InstallationFine(source, paths, later);
    CombineProblems(source, later);
  }

  lemma CombineProblems(source: Source, later: seq<PathObservation>)
    ensures FirstProblem(source, later).None? <==>
      && SourceProblem(source).None? && SurfaceProblem(later).None? && DirectoriesProblem(later, DIRECTORIES).None?
      && AdoptedProblem(later).None? && AdoptionProblem(later).None? && OwnershipProblem(later).None?
      && SectionsProblem(later).None? && InstalledProblem(later).None? && LegacyProblem(later).None?
  {
  }

  lemma SameBlock(source: Source, paths: seq<PathObservation>, later: seq<PathObservation>)
    requires AdoptionOf(later) == AdoptionOf(paths)
    ensures DesiredBlock(source, later) == DesiredBlock(source, paths)
    ensures DesiredSnapshot(source, later) == DesiredSnapshot(source, paths)
  {
    assert DesiredFields(source, later) == DesiredFields(source, paths);
  }

  lemma SameAgents(source: Source, later: seq<PathObservation>, agents: Bytes, block: Bytes)
    requires AgentsOf(later) == agents && !LegacyInstalled(later) && DesiredBlock(source, later) == block
    requires SpanOf(CURRENT, agents).Some? && Within(SpanOf(CURRENT, agents).value, agents)
    requires PlaceBlock(agents, SpanOf(CURRENT, agents).value, block) == agents
    ensures DesiredAgents(source, later) == agents
  {
  }

  lemma SameDesire(source: Source, paths: seq<PathObservation>, later: seq<PathObservation>)
    requires ObservesInstalled(source, paths, later) && BlockSettled(source, paths)
    ensures DesiredAgents(source, later) == DesiredAgents(source, paths)
    ensures DesiredSnapshot(source, later) == DesiredSnapshot(source, paths)
  {
    AdoptionStays(paths, later);
    SameBlock(source, paths, later);
    AgentsLater(source, paths, later);
    SameAgents(source, later, DesiredAgents(source, paths), DesiredBlock(source, paths));
  }

  /**
   Planning over an installation is a fixpoint: for a fresh install, an upgrade and a migration
   alike there is nothing left to do. The two exceptions are a packaged skill that is a bare
   byte order mark, and a packaged block with a legacy marker line, which the source checks do
   not exclude: with either of them the second planning is a conflict.
   */
  lemma SettlesWhereObserved(rootIdentity: Identity, source: Source, paths: seq<PathObservation>, seed: string,
                          later: seq<PathObservation>, laterSeed: string)
    requires ValidSeed(seed) && ValidSeed(laterSeed)
    requires PlanActivation(rootIdentity, source, paths, seed).Previewed? && ObservesInstalled(source, paths, later)
    ensures PlanActivation(rootIdentity, source, later, laterSeed).Unchanged? <==>
            !OnlyMark(source.skill.bytes) && Unmarked(LEGACY, LinesOf(source.agentBlock.bytes))
  {
    Problems(rootIdentity, source, paths, seed);
    ProblemsLater(source, paths, later);
    AgentsSettle(source, paths);
    SameDesire(source, paths, later);
    InstalledFiles(source, paths, later);
    InPlaceFrom(later, later, DesiredAgents(source, later), DesiredSkill(source), source.workflow.bytes,
                DesiredSnapshot(source, later), source.skill.mode, source.workflow.mode);
    assert Reason(FirstProblem(source, later));
  }
}
