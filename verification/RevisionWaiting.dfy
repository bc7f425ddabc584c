/**
 When an accepted sheet leaves the record set valid: exactly when it does not close a loop through
 a stored revision that was waiting for one of the ids it brings
 (packages/cli/src/review-import.ts:283-327, packages/core/src/review/revision-content.ts:142-196, 251-299).
 */
module RevisionWaiting {
  import opened Foundations
  import opened RevisionModel
  import opened SupersedesChain
  import opened RevisionImport

  /** A chain of the list leads from one id to another. */
  ghost predicate Reaches(list: seq<Revision>, from: string, to: string) {
    exists path :: PathFrom(list, path) && path != [] && path[0] == from && path[|path| - 1] == to
  }

  /** A stored revision supersedes an id that only the sheet brings. */
  predicate WaitsFor(known: seq<Revision>, raw: seq<Revision>, w: Revision, target: string) {
    w.supersedes == Some(target) && !Has(known, target) && Has(raw, target)
  }

  /** The chain of an id that the sheet brings runs to the stored revision that waited for it. */
  ghost predicate ClosesLoop(known: seq<Revision>, raw: seq<Revision>) {
    exists w, target :: w in Firsts(known) && WaitsFor(known, raw, w, target) && Reaches(Firsts(known + raw), target, w.id)
  }

  // ---------------------------------------------------------------------
  // Cycles
  // ---------------------------------------------------------------------

  /** A path whose last revision leads to its first. */
  ghost predicate Cycle(list: seq<Revision>, path: seq<string>) {
    PathFrom(list, path) && path != [] && Leads(list, path[|path| - 1], path[0])
  }

  lemma PathTail(list: seq<Revision>, path: seq<string>, k: nat)
    requires PathFrom(list, path) && k <= |path|
    ensures PathFrom(list, path[k..]) && PathFrom(list, path[..k])
  {
    var tail := path[k..];
    forall j | 0 < j < |tail| ensures Leads(list, tail[j - 1], tail[j]) {
      assert Leads(list, path[k + j - 1], path[k + j]);
    }
  }

  /** A chain without an end runs into a cycle. */
  lemma {:induction false} EndlessHasCycle(list: seq<Revision>, r: Revision, path: seq<string>, left: set<string>) returns (cycle: seq<string>)
    requires !Ends(list, r) && Find(list, r.id) == Some(r) && PathFrom(list, path)
    requires path != [] ==> Leads(list, path[|path| - 1], r.id)
    requires left == ToSet(Ids(list)) - ToSet(path)
    ensures Cycle(list, cycle)
    decreases left
  {
    hide Ends, Leads;
    if r.id in path {
      var k :| 0 <= k < |path| && path[k] == r.id;
      PathTail(list, path, k);
      cycle := path[k..];
    } else {
      FoundIsListed(list, r.id);
      EndsStep(list, r);
      var older := Older(list, r).value;
      OlderIsFound(list, r);
      PathOn(list, path, r.id);
      LeadsOn(list, r);
      cycle := EndlessHasCycle(list, older, path + [r.id], left - {r.id});
    }
  }

  lemma PathOn(list: seq<Revision>, path: seq<string>, id: string)
    requires PathFrom(list, path) && Find(list, id).Some? && (path != [] ==> Leads(list, path[|path| - 1], id))
    ensures PathFrom(list, path + [id])
  {
    hide Leads;
  }

  lemma LeadsOn(list: seq<Revision>, r: Revision)
    requires Find(list, r.id) == Some(r) && Older(list, r).Some?
    ensures Leads(list, r.id, Older(list, r).value.id)
  {
  }

  /** The same cycle started elsewhere. */
  lemma Rotated(list: seq<Revision>, cycle: seq<string>, k: nat)
    requires Cycle(list, cycle) && k < |cycle|
    ensures PathFrom(list, cycle[k..] + cycle[..k])
  {
    hide Leads;
    var turned := cycle[k..] + cycle[..k];
    var n := |cycle| - k;
    forall j | 0 < j < |turned| ensures Leads(list, turned[j - 1], turned[j]) {
      if j < n {
        assert Leads(list, cycle[k + j - 1], cycle[k + j]);
      } else if j > n {
        assert Leads(list, cycle[j - n - 1], cycle[j - n]);
      }
    }
  }

  /** A list in which every chain ends has no cycle. */
  lemma CycleIsEndless(list: seq<Revision>, cycle: seq<string>)
    requires Cycle(list, cycle)
    ensures !AllEnd(list)
  {
    hide Ends, PathFrom, AllEnd;
    PathIsCyclic(list, cycle, cycle[0], 0);
    HeadFound(list, cycle);
    var r := Find(list, cycle[0]).value;
    var i :| 0 <= i < |list| && list[i] == r;
    EndlessAt(list, i);
  }

  lemma EndlessAt(list: seq<Revision>, i: nat)
    requires i < |list| && !Ends(list, list[i])
    ensures !AllEnd(list)
  {
  }

  lemma HeadFound(list: seq<Revision>, path: seq<string>)
    requires PathFrom(list, path) && path != []
    ensures Find(list, path[0]).Some?
  {
  }

  // ---------------------------------------------------------------------
  // Cycles of a record set and a sheet
  // ---------------------------------------------------------------------

  /** Where a revision of the joined list comes from. */
  lemma JoinedFind(earlier: seq<Revision>, latest: seq<Revision>, id: string)
    requires Has(latest, id) ==> !Has(earlier, id)
    ensures Find(earlier + latest, id) == if Has(latest, id) then Find(latest, id) else Find(earlier, id)
  {
    if Has(latest, id) {
      FindSecond(earlier, latest, id);
    } else {
      FindFirst(earlier, latest, id);
    }
  }

  ghost predicate Apart(earlier: seq<Revision>, latest: seq<Revision>) {
    forall id :: Has(latest, id) ==> !Has(earlier, id)
  }

  lemma LeadsWithin(earlier: seq<Revision>, latest: seq<Revision>, from: string, to: string)
    requires Apart(earlier, latest) && Leads(earlier + latest, from, to)
    ensures Has(latest, from) || Has(earlier, from)
    ensures Has(earlier, from) && Has(earlier, to) ==> Leads(earlier, from, to)
    ensures Has(latest, from) && Has(latest, to) ==> Leads(latest, from, to)
  {
    hide Find;
    JoinedFind(earlier, latest, from);
    var r := Find(earlier + latest, from).value;
    JoinedFind(earlier, latest, r.supersedes.value);
  }

  lemma CycleWithin(earlier: seq<Revision>, latest: seq<Revision>, cycle: seq<string>)
    requires Apart(earlier, latest) && Cycle(earlier + latest, cycle)
    ensures (forall k :: 0 <= k < |cycle| ==> Has(earlier, cycle[k])) ==> Cycle(earlier, cycle)
    ensures (forall k :: 0 <= k < |cycle| ==> Has(latest, cycle[k])) ==> Cycle(latest, cycle)
  {
    hide Find, Leads;
    forall k | 0 < k < |cycle|
      ensures Has(earlier, cycle[k - 1]) && Has(earlier, cycle[k]) ==> Leads(earlier, cycle[k - 1], cycle[k])
      ensures Has(latest, cycle[k - 1]) && Has(latest, cycle[k]) ==> Leads(latest, cycle[k - 1], cycle[k])
    {
      LeadsWithin(earlier, latest, cycle[k - 1], cycle[k]);
    }
    LeadsWithin(earlier, latest, cycle[|cycle| - 1], cycle[0]);
  }

  /** If only new ids lead to new ids, then everything before a new id is new. */
  lemma {:induction false} NewBefore(earlier: seq<Revision>, latest: seq<Revision>, path: seq<string>, k: nat, j: nat)
    requires Apart(earlier, latest) && PathFrom(earlier + latest, path) && j <= k < |path| && Has(latest, path[k])
    requires forall i :: 0 < i < |path| && Has(latest, path[i]) ==> !Has(earlier, path[i - 1])
    ensures Has(latest, path[j])
    decreases k - j
  {
    hide Find, Leads;
    if j < k {
      NewBefore(earlier, latest, path, k, j + 1);
      LeadsWithin(earlier, latest, path[j], path[j + 1]);
    }
  }

  /** A cycle that is neither old nor new steps from an old id to a new one. */
  lemma CycleSteps(earlier: seq<Revision>, latest: seq<Revision>, cycle: seq<string>) returns (k: nat)
    requires Apart(earlier, latest) && Cycle(earlier + latest, cycle)
    requires !Cycle(earlier, cycle) && !Cycle(latest, cycle)
    ensures k < |cycle| && Has(latest, cycle[k])
    ensures Has(earlier, cycle[if k == 0 then |cycle| - 1 else k - 1])
  {
    hide Find, Leads, PathFrom;
    CycleWithin(earlier, latest, cycle);
    AllListed(earlier, latest, cycle);
    var i :| 0 <= i < |cycle| && Has(latest, cycle[i]);
    if Has(latest, cycle[0]) && Has(earlier, cycle[|cycle| - 1]) {
      k := 0;
    } else if j :| 0 < j < |cycle| && Has(latest, cycle[j]) && Has(earlier, cycle[j - 1]) {
      k := j;
    } else {
      NewBefore(earlier, latest, cycle, i, 0);
      assert Has(latest, cycle[|cycle| - 1]);
      forall j | 0 <= j < |cycle| ensures Has(latest, cycle[j]) {
        NewBefore(earlier, latest, cycle, |cycle| - 1, j);
      }
      assert false;
    }
  }

  lemma AllListed(earlier: seq<Revision>, latest: seq<Revision>, path: seq<string>)
    requires PathFrom(earlier + latest, path)
    ensures forall k :: 0 <= k < |path| ==> Has(earlier, path[k]) || Has(latest, path[k])
  {
    hide Find, Leads;
    forall k | 0 <= k < |path| ensures Has(earlier, path[k]) || Has(latest, path[k]) {
      HasConcat(earlier, latest, path[k]);
    }
  }

  // ---------------------------------------------------------------------
  // Loops
  // ---------------------------------------------------------------------

  lemma NewApart(known: seq<Revision>, raw: seq<Revision>)
    ensures Apart(Firsts(known), NewOf(known, Firsts(raw)))
    ensures forall id :: Has(NewOf(known, Firsts(raw)), id) ==> Has(raw, id) && !Has(known, id)
  {
    hide Find, Firsts;
    forall id | Has(NewOf(known, Firsts(raw)), id) ensures Has(raw, id) && !Has(known, id) && !Has(Firsts(known), id) {
      var r := Find(NewOf(known, Firsts(raw)), id).value;
      HasMember(Firsts(raw), r);
      FirstsHave(raw, id);
      FirstsHave(known, id);
    }
  }

  lemma NewIs(known: seq<Revision>, raw: seq<Revision>, id: string)
    requires Has(raw, id) && !Has(known, id)
    ensures Has(NewOf(known, Firsts(raw)), id)
  {
    hide Find, Firsts;
    FirstsHave(raw, id);
    var r := Find(Firsts(raw), id).value;
    HasMember(NewOf(known, Firsts(raw)), r);
  }

  /** A closed loop is a cycle. */
  lemma LoopIsCycle(known: seq<Revision>, raw: seq<Revision>)
    requires ClosesLoop(known, raw)
    ensures exists cycle :: Cycle(Firsts(known + raw), cycle)
  {
    hide Find, Firsts, PathFrom, Has;
    var all := Firsts(known + raw);
    var w, target :| w in Firsts(known) && WaitsFor(known, raw, w, target) && Reaches(all, target, w.id);
    var path :| PathFrom(all, path) && path != [] && path[0] == target && path[|path| - 1] == w.id;
    WaitingLeads(known, raw, w, target);
    assert Cycle(all, path);
  }

  lemma WaitingLeads(known: seq<Revision>, raw: seq<Revision>, w: Revision, target: string)
    requires w in Firsts(known) && WaitsFor(known, raw, w, target)
    ensures Leads(Firsts(known + raw), w.id, target)
  {
    hide Find, Firsts, Distinct;
    var earlier, latest := Firsts(known), NewOf(known, Firsts(raw));
    FirstsConcat(known, raw);
    NewApart(known, raw);
    NewIs(known, raw, target);
    FirstsDistinct(known);
    FoundItself(earlier, w);
    HasMember(earlier, w);
    JoinedFind(earlier, latest, w.id);
    JoinedFind(earlier, latest, target);
  }

  lemma FoundItself(list: seq<Revision>, r: Revision)
    requires r in list && Distinct(Ids(list))
    ensures Find(list, r.id) == Some(r)
  {
    var i :| 0 <= i < |list| && list[i] == r;
    FindIs(list, i);
  }

  /** A cycle of the joined list is a closed loop. */
  lemma CycleIsLoop(known: seq<Revision>, raw: seq<Revision>, cycle: seq<string>)
    requires AllEnd(Firsts(known)) && AllEnd(Firsts(raw)) && Cycle(Firsts(known + raw), cycle)
    ensures ClosesLoop(known, raw)
  {
    hide Find, Firsts, PathFrom, Has, Leads, AllEnd, Distinct, NewOf, WaitsFor;
    var earlier, sheet := Firsts(known), Firsts(raw);
    var latest, all := NewOf(known, sheet), Firsts(known + raw);
    FirstsConcat(known, raw);
    NewApart(known, raw);
    FirstsDistinct(known);
    FirstsDistinct(raw);
    if Cycle(earlier, cycle) {
      CycleIsEndless(earlier, cycle);
    }
    NoNewCycle(known, raw, cycle);
    var k := CycleSteps(earlier, latest, cycle);
    Rotated(all, cycle, k);
    var path := cycle[k..] + cycle[..k];
    var before := cycle[if k == 0 then |cycle| - 1 else k - 1];
    assert path[|path| - 1] == before && path[0] == cycle[k];
    StepWaits(known, raw, cycle, k, before);
  }

  /** New chains run within the sheet, where they end. */
  lemma NoNewCycle(known: seq<Revision>, raw: seq<Revision>, cycle: seq<string>)
    requires AllEnd(Firsts(raw))
    ensures !Cycle(NewOf(known, Firsts(raw)), cycle)
  {
    hide Find, Firsts, AllEnd, Distinct, Leads, PathFrom;
    var sheet := Firsts(raw);
    var latest := NewOf(known, sheet);
    FirstsDistinct(raw);
    NewDiffer(known, sheet);
    if Cycle(latest, cycle) {
      InSheet(latest, sheet, cycle);
      CycleIsEndless(sheet, cycle);
    }
  }

  lemma LeadsInSheet(latest: seq<Revision>, sheet: seq<Revision>, from: string, to: string)
    requires forall id :: Has(latest, id) ==> Find(sheet, id) == Find(latest, id)
    requires Leads(latest, from, to)
    ensures Leads(sheet, from, to)
  {
    hide Find;
    var r := Find(latest, from).value;
    assert Has(latest, from) && Has(latest, r.supersedes.value);
  }

  lemma InSheet(latest: seq<Revision>, sheet: seq<Revision>, cycle: seq<string>)
    requires forall id :: Has(latest, id) ==> Find(sheet, id) == Find(latest, id)
    requires Cycle(latest, cycle)
    ensures Cycle(sheet, cycle)
  {
    hide Find, Leads;
    forall k | 0 <= k < |cycle| ensures Find(sheet, cycle[k]).Some? {
      assert Has(latest, cycle[k]);
    }
    forall k | 0 < k < |cycle| ensures Leads(sheet, cycle[k - 1], cycle[k]) {
      LeadsInSheet(latest, sheet, cycle[k - 1], cycle[k]);
    }
    LeadsInSheet(latest, sheet, cycle[|cycle| - 1], cycle[0]);
  }

  lemma CycleLeads(list: seq<Revision>, cycle: seq<string>, k: nat)
    requires Cycle(list, cycle) && k < |cycle|
    ensures Leads(list, cycle[if k == 0 then |cycle| - 1 else k - 1], cycle[k])
  {
    hide Leads;
  }

  lemma StepWaits(known: seq<Revision>, raw: seq<Revision>, cycle: seq<string>, k: nat, before: string)
    requires Cycle(Firsts(known + raw), cycle) && k < |cycle| && before == cycle[if k == 0 then |cycle| - 1 else k - 1]
    requires Has(Firsts(known), before) && Has(NewOf(known, Firsts(raw)), cycle[k])
    requires Reaches(Firsts(known + raw), cycle[k], before)
    ensures ClosesLoop(known, raw)
  {
    hide Find, Firsts, PathFrom, Distinct, Reaches;
    var earlier, latest := Firsts(known), NewOf(known, Firsts(raw));
    FirstsConcat(known, raw);
    NewApart(known, raw);
    CycleLeads(Firsts(known + raw), cycle, k);
    JoinedFind(earlier, latest, before);
    var w := Find(earlier, before).value;
    assert WaitsFor(known, raw, w, cycle[k]) && w in earlier;
  }

  // ---------------------------------------------------------------------
  // The exact condition
  // ---------------------------------------------------------------------

  /** Joining an accepted sheet breaks the chains exactly if it closes a loop. */
  lemma JoinedIff(known: seq<Revision>, raw: seq<Revision>)
    requires OneContent(known) && ConflictIds(Firsts(known)) == [] && ConflictIds(Firsts(raw)) == [] && NewUsable(known, raw)
    ensures ConflictIds(Firsts(known + raw)) == [] <==> !ClosesLoop(known, raw)
  {
    hide ConflictIds, OneSuccessor, AllEnd, Firsts, NewOf, Has, Find, OneContent, NewUsable, ClosesLoop, Cycle;
    var all := Firsts(known + raw);
    ConflictsMeaning(Firsts(known));
    ConflictsMeaning(Firsts(raw));
    ConflictsMeaning(all);
    ClaimsStay(known, raw);
    FirstsDistinct(known + raw);
    if ClosesLoop(known, raw) {
      LoopIsCycle(known, raw);
      var cycle :| Cycle(all, cycle);
      CycleIsEndless(all, cycle);
    } else if !AllEnd(all) {
      var cycle := SomeCycle(all);
      CycleIsLoop(known, raw, cycle);
    }
  }

  lemma SomeCycle(list: seq<Revision>) returns (cycle: seq<string>)
    requires !AllEnd(list) && Distinct(Ids(list))
    ensures Cycle(list, cycle)
  {
    hide Ends, Cycle;
    var i :| 0 <= i < |list| && !Ends(list, list[i]);
    FindIs(list, i);
    NoPath(list);
    cycle := EndlessHasCycle(list, list[i], [], ToSet(Ids(list)));
  }

  lemma ClaimsStay(known: seq<Revision>, raw: seq<Revision>)
    requires OneContent(known) && OneSuccessor(Firsts(known)) && OneSuccessor(Firsts(raw)) && NewUsable(known, raw)
    ensures OneSuccessor(Firsts(known + raw))
  {
    hide OneSuccessor, Firsts, NewOf, Has, Find, OneContent, NewUsable, IsNew, Distinct;
    var earlier, sheet := Firsts(known), Firsts(raw);
    var latest := NewOf(known, sheet);
    FirstsDistinct(raw);
    NewDiffer(known, sheet);
    forall a, b | a in earlier && b in latest && b.supersedes.Some? ensures a.supersedes != b.supersedes {
      NoSharedClaim(known, raw, a, b);
    }
    ClaimsJoined(earlier, latest);
    FirstsConcat(known, raw);
  }

  /** An accepted sheet leaves the record set valid exactly if it closes no loop through a waiting revision. */
  lemma ImportKeepsValidIff(records: seq<Stored>, raw: seq<Revision>)
    requires Import(records, raw).Accepted?
    ensures ValidSet(Import(records, raw).records) <==> !ClosesLoop(Flat(records), raw)
  {
    hide ConflictIds, Firsts, NewUsable, Unusable, OtherContent, SheetOneContent, OneContent, IsNew, ClosesLoop;
    var known := Flat(records);
    AcceptedIsUsable(records, raw);
    JoinedIff(known, raw);
    ContentJoined(known, raw);
    FlatAppend(records, raw);
    if Import(records, raw).records == records {
      StoredIfNew(records, raw);
      NothingNewNoLoop(known, raw);
    }
  }

  lemma NothingNewNoLoop(known: seq<Revision>, raw: seq<Revision>)
    requires forall r :: r in raw ==> Has(known, r.id)
    ensures !ClosesLoop(known, raw)
  {
    hide Firsts, Reaches, Find;
    forall w, target | w in Firsts(known) ensures !WaitsFor(known, raw, w, target) {
      if Has(raw, target) {
        var r := Find(raw, target).value;
        assert r in raw;
      }
    }
  }

  /** A caller who finds every superseded id among the stored ones need not look any further. */
  lemma KnownTargetsSuffice(records: seq<Stored>, raw: seq<Revision>)
    requires Import(records, raw).Accepted? && TargetsKnown(Flat(records))
    ensures !ClosesLoop(Flat(records), raw) && ValidSet(Import(records, raw).records)
  {
    hide Firsts, Reaches, Find, ValidSet, Import;
    ImportKeepsValidIff(records, raw);
    forall w, target | w in Firsts(Flat(records)) ensures !WaitsFor(Flat(records), raw, w, target) {
    }
  }
}
