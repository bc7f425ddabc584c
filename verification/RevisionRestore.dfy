/** The loops of restore (packages/core/src/review/annotation-state.ts:371-414). */
module RevisionRestore {
  import opened Foundations
  import opened RevisionModel
  import opened SupersedesChain
  import opened RevisionState
  import opened RevisionRuns
  import opened Quarantine

  lemma SheetStep(state: State, sheet: seq<Revision>, k: nat)
    requires k < |sheet|
    ensures Clashing(state, sheet[..k + 1]) == Clashing(state, sheet[..k]) + if Clashes(state, sheet[k]) then [sheet[k].id] else []
    ensures UnseenOf(state, sheet[..k + 1]) == UnseenOf(state, sheet[..k]) + if FindRequest(state, sheet[k].id).None? then [sheet[k]] else []
    ensures SkippedOf(state, sheet[..k + 1]) == SkippedOf(state, sheet[..k]) + if OnPage(state, sheet[k]) then 1 else 0
  {
    hide Clashes, OnPage;
    assert sheet[..k + 1][..k] == sheet[..k];
  }

  /** Sorts the sheet into new revisions, known ones, and conflicts. */
  method SortSheet(state: State, sheet: seq<Revision>)
    returns (unseen: seq<Revision>, conflicts: seq<string>, inSheet: set<string>, skipped: nat)
    ensures unseen == UnseenOf(state, sheet) && conflicts == Clashing(state, sheet) && skipped == SkippedOf(state, sheet)
    ensures forall id :: id in inSheet <==> InSheet(state, sheet, id)
  {
    hide SameContent, UnseenOf, Clashing, SkippedOf;
    unseen, conflicts, inSheet, skipped := [], [], {}, 0;
    NothingSorted(state);
    assert sheet[..0] == [];
    for k := 0 to |sheet|
      invariant unseen == UnseenOf(state, sheet[..k]) && conflicts == Clashing(state, sheet[..k]) && skipped == SkippedOf(state, sheet[..k])
      invariant forall id :: id in inSheet <==> exists i :: 0 <= i < k && sheet[i].id == id && OnPage(state, sheet[i])
    {
      SheetStep(state, sheet, k);
      var revision := sheet[k];
      var found := FindRequest(state, revision.id);
      if found.None? {
        unseen := unseen + [revision];
      } else if SameContent(found.value.revision, revision) {
        skipped := skipped + 1;
        inSheet := inSheet + {revision.id};
      } else {
        conflicts := conflicts + [revision.id];
      }
    }
    assert sheet[..|sheet|] == sheet;
  }

  lemma NothingSorted(state: State)
    ensures UnseenOf(state, []) == [] && Clashing(state, []) == [] && SkippedOf(state, []) == 0
  {
  }

  method MarkInSheet(state: State, ghost sheet: seq<Revision>, inSheet: set<string>) returns (existing: State)
    requires forall id :: id in inSheet <==> InSheet(state, sheet, id)
    ensures existing == Existing(state, sheet, |state|)
  {
    hide InSheet;
    existing := [];
    for k := 0 to |state|
      invariant existing == Existing(state, sheet, k)
    {
      var e := state[k];
      existing := existing + [if e.revision.id in inSheet then WithFlags(e.revision, true, e.pending) else e];
    }
  }

  method AttachNew(unseen: seq<Revision>, fingerprint: string, page: seq<Locator>) returns (entries: State, added: nat, pending: nat)
    ensures entries == NewEntries(unseen, fingerprint, page)
    ensures pending == PendingOf(entries) && added == |entries| - pending
  {
    hide Attached, NormalizedRevision;
    entries, added, pending := [], 0, 0;
    for k := 0 to |unseen|
      invariant entries == NewEntries(unseen[..k], fingerprint, page)
      invariant pending == PendingOf(entries) && added == |entries| - pending
    {
      assert unseen[..k + 1][..k] == unseen[..k];
      var attached := Attached(unseen[k], fingerprint, page);
      if attached {
        added := added + 1;
      } else {
        pending := pending + 1;
      }
      entries := entries + [WithFlags(NormalizedRevision(unseen[k]), true, !attached)];
    }
    assert unseen[..|unseen|] == unseen;
  }

  method RestoreSheet(state: State, sheet: seq<Revision>, fingerprint: string, page: seq<Locator>) returns (r: Restored)
    requires DistinctIds(state) && Distinct(Ids(sheet))
    ensures r == Restore(state, sheet, fingerprint, page)
  {
    hide Distinct, DistinctIds, Problems, Clashing, UnseenOf, SkippedOf, Existing, NewEntries, InSheet, PendingOf;
    var unseen, conflicts, inSheet, skipped := SortSheet(state, sheet);
    var existing := MarkInSheet(state, sheet, inSheet);
    if conflicts != [] {
      return RestoreRefused(conflicts);
    }
    var entries, added, pending := AttachNew(unseen, fingerprint, page);
    var merged := existing + entries;
    if |merged| > MAX_REVISIONS {
      return RestoreRefused([]);
    }
    MergedDistinct(state, sheet, fingerprint, page);
    var chain := SupersedesProblems(merged);
    if chain != [] {
      return RestoreRefused(chain);
    }
    r := RestoredTo(merged, added, skipped, pending);
  }
}
