/**
 Importing revision sheets into the record set (packages/cli/src/review-import.ts:75-86, 147-327,
 packages/core/src/review/revision-content.ts:109-127, 251-299).
 */
module RevisionImport {
  import opened Foundations
  import opened RevisionModel
  import opened SupersedesChain

  /** The revisions of one stored record. */
  type Stored = seq<Revision>

  function Flat(records: seq<Stored>): seq<Revision> {
    if records == [] then [] else Flat(records[..|records| - 1]) + records[|records| - 1]
  }

  predicate Has(list: seq<Revision>, id: string) {
    Find(list, id).Some?
  }

  /** The first revision of each id, in order. */
  function Firsts(list: seq<Revision>): (firsts: seq<Revision>)
    ensures forall r :: r in firsts ==> r in list
  {
    if list == [] then []
    else
      var before, last := Firsts(list[..|list| - 1]), list[|list| - 1];
      if Has(before, last.id) then before else before + [last]
  }

  /** Revisions with the same id have the same content. */
  ghost predicate OneContent(list: seq<Revision>) {
    forall a, b :: a in list && b in list && a.id == b.id ==> SameContent(a, b)
  }

  /** validateRevisionRecordSet finds nothing. */
  ghost predicate ValidSet(records: seq<Stored>) {
    OneContent(Flat(records)) && ConflictIds(Firsts(Flat(records))) == []
  }

  /** Everything superseded is in the list. */
  ghost predicate TargetsKnown(list: seq<Revision>) {
    forall r :: r in list && r.supersedes.Some? ==> Has(list, r.supersedes.value)
  }

  ghost predicate Consistent(records: seq<Stored>) {
    ValidSet(records) && TargetsKnown(Flat(records))
  }

  // ---------------------------------------------------------------------
  // One import
  // ---------------------------------------------------------------------

  datatype Rejection = RecordsInvalid | SameIdOtherContent | SheetChainBroken | ImportedOtherContent | TargetUnusable

  datatype Imported = Rejected(why: Rejection) | Accepted(records: seq<Stored>)

  /** dedupeRevisions finds no two contents for one id. */
  predicate SheetOneContent(raw: seq<Revision>) {
    forall i :: 0 <= i < |raw| ==> SameAsFirst(raw, raw[i])
  }

  /** The same content as the first revision with this id. */
  predicate SameAsFirst(list: seq<Revision>, r: Revision) {
    Has(Firsts(list), r.id) && SameContent(Find(Firsts(list), r.id).value, r)
  }

  function NormalizedAll(list: seq<Revision>): (all: seq<Revision>)
    ensures |all| == |list| && forall i :: 0 <= i < |list| ==> all[i] == NormalizedRevision(list[i])
  {
    if list == [] then [] else NormalizedAll(list[..|list| - 1]) + [NormalizedRevision(list[|list| - 1])]
  }

  predicate IsNew(known: seq<Revision>, r: Revision) {
    !Has(known, r.id)
  }

  /** Nobody else claims the target, and the target is known. */
  predicate MaySupersede(known: seq<Revision>, sheet: seq<Revision>, id: string, target: string) {
    && (Has(known, target) || Has(sheet, target))
    && (forall other :: other in known && Find(known, other.id) == Some(other) ==> other.supersedes != Some(target))
    && FirstClaim(sheet, target) == Some(id)
  }

  /** The first revision of the sheet with this claim. */
  function FirstClaim(sheet: seq<Revision>, target: string): Option<string> {
    if sheet == [] then None
    else if sheet[0].supersedes == Some(target) then Some(sheet[0].id)
    else FirstClaim(sheet[1..], target)
  }

  /** A revision of the sheet that is imported already, but with another content. */
  predicate OtherContent(known: seq<Revision>, r: Revision) {
    Has(known, r.id) && !SameContent(Find(known, r.id).value, r)
  }

  predicate Unusable(known: seq<Revision>, sheet: seq<Revision>, r: Revision) {
    IsNew(known, r) && r.supersedes.Some? && !MaySupersede(known, sheet, r.id, r.supersedes.value)
  }

  /** runReviewImport behind the parsing of the sheet: its raw block is stored if it holds anything new. */
  ghost function Import(records: seq<Stored>, raw: seq<Revision>): Imported {
    var known, sheet := Flat(records), NormalizedAll(Firsts(raw));
    if !ValidSet(records) then Rejected(RecordsInvalid)
    else if !SheetOneContent(raw) then Rejected(SameIdOtherContent)
    else if ConflictIds(Firsts(raw)) != [] then Rejected(SheetChainBroken)
    else if exists i :: 0 <= i < |sheet| && OtherContent(known, sheet[i]) then Rejected(ImportedOtherContent)
    else if exists i :: 0 <= i < |sheet| && Unusable(known, sheet, sheet[i]) then Rejected(TargetUnusable)
    else if exists i :: 0 <= i < |sheet| && IsNew(known, sheet[i]) then Accepted(records + [raw])
    else Accepted(records)
  }

  // ---------------------------------------------------------------------
  // First revisions
  // ---------------------------------------------------------------------

  lemma HasMember(list: seq<Revision>, r: Revision)
    requires r in list
    ensures Has(list, r.id)
  {
  }

  lemma HasConcat(a: seq<Revision>, b: seq<Revision>, id: string)
    ensures Has(a + b, id) <==> Has(a, id) || Has(b, id)
  {
    if Has(a + b, id) {
      var r := Find(a + b, id).value;
      assert r in a || r in b;
    }
    if Has(a, id) {
      assert Find(a, id).value in a + b;
    }
    if Has(b, id) {
      assert Find(b, id).value in a + b;
    }
  }

  lemma {:induction false} FirstsHave(list: seq<Revision>, id: string)
    ensures Has(Firsts(list), id) <==> Has(list, id)
    decreases |list|
  {
    hide Find;
    if list != [] {
      var front, last := list[..|list| - 1], list[|list| - 1];
      FirstsHave(front, id);
      assert list == front + [last];
      HasConcat(front, [last], id);
      HasConcat(Firsts(front), [last], id);
      HasOne(last, id);
      FirstsHave(front, last.id);
    }
  }

  lemma HasOne(r: Revision, id: string)
    ensures Has([r], id) <==> r.id == id
  {
  }

  lemma IdsOf(list: seq<Revision>, id: string)
    ensures id in Ids(list) <==> Has(list, id)
  {
    if id in Ids(list) {
      var i :| 0 <= i < |Ids(list)| && Ids(list)[i] == id;
      assert list[i] in list;
    }
    if Has(list, id) {
      FoundIsListed(list, id);
    }
  }

  lemma {:induction false} FirstsDistinct(list: seq<Revision>)
    ensures Distinct(Ids(Firsts(list)))
    decreases |list|
  {
    hide Has, Distinct;
    if list == [] {
      EmptyDistinct();
    } else {
      var front, last := list[..|list| - 1], list[|list| - 1];
      FirstsDistinct(front);
      FirstsHave(front, last.id);
      if !Has(front, last.id) {
        IdsOf(Firsts(front), last.id);
        DistinctAppend(Ids(Firsts(front)), last.id);
        assert (Firsts(front) + [last])[..|Firsts(front)|] == Firsts(front);
        assert Ids(Firsts(list)) == Ids(Firsts(front)) + [last.id];
      }
    }
  }

  lemma EmptyDistinct()
    ensures Distinct(Ids([]))
  {
  }

  /** The revisions of a list that the first list does not have. */
  function NewOf(known: seq<Revision>, list: seq<Revision>): (unseen: seq<Revision>)
    ensures forall r :: r in unseen <==> r in list && IsNew(known, r)
  {
    if list == [] then []
    else NewOf(known, list[..|list| - 1]) + if IsNew(known, list[|list| - 1]) then [list[|list| - 1]] else []
  }

  lemma NewAppend(known: seq<Revision>, list: seq<Revision>, r: Revision)
    ensures NewOf(known, list + [r]) == NewOf(known, list) + if IsNew(known, r) then [r] else []
  {
    assert (list + [r])[..|list|] == list;
  }

  /** Joining two lists adds the new first revisions of the second. */
  lemma {:induction false} FirstsConcat(a: seq<Revision>, b: seq<Revision>)
    ensures Firsts(a + b) == Firsts(a) + NewOf(a, Firsts(b))
    decreases |b|
  {
    hide Has, IsNew, Firsts;
    if b == [] {
      assert a + b == a;
      NothingFirst();
    } else {
      var front, last := b[..|b| - 1], b[|b| - 1];
      FirstsConcat(a, front);
      assert (a + b)[..|a + b| - 1] == a + front && (a + b)[|a + b| - 1] == last;
      FirstsStep(b);
      FirstsStep(a + b);
      HasConcat(a, front, last.id);
      NewAppend(a, Firsts(front), last);
      NewMeaning(a, last);
      var more := NewOf(a, Firsts(front));
      assert Firsts(a) + more + [last] == Firsts(a) + (more + [last]);
    }
  }

  lemma NothingFirst()
    ensures Firsts([]) == []
  {
  }

  lemma FirstsStep(list: seq<Revision>)
    requires list != []
    ensures var front, last := list[..|list| - 1], list[|list| - 1];
      Firsts(list) == if Has(front, last.id) then Firsts(front) else Firsts(front) + [last]
  {
    hide Find;
    FirstsHave(list[..|list| - 1], list[|list| - 1].id);
  }

  lemma NewMeaning(known: seq<Revision>, r: Revision)
    ensures IsNew(known, r) <==> !Has(known, r.id)
  {
  }

  lemma FlatAppend(records: seq<Stored>, raw: Stored)
    ensures Flat(records + [raw]) == Flat(records) + raw
  {
    assert (records + [raw])[..|records|] == records;
  }

  // ---------------------------------------------------------------------
  // Contents
  // ---------------------------------------------------------------------

  lemma SheetContent(raw: seq<Revision>, r: Revision)
    requires SheetOneContent(raw) && r in raw
    ensures SameAsFirst(raw, r)
  {
    var i :| 0 <= i < |raw| && raw[i] == r;
  }

  /** Every revision of an accepted sheet that is imported already has the imported content. */
  lemma KnownContent(known: seq<Revision>, raw: seq<Revision>, r: Revision)
    requires OneContent(known) && SheetOneContent(raw) && r in raw && Has(known, r.id)
    requires forall i :: 0 <= i < |NormalizedAll(Firsts(raw))| ==> !OtherContent(known, NormalizedAll(Firsts(raw))[i])
    ensures SameContent(Find(known, r.id).value, r)
  {
    hide NormalizedRevision, ContentKey;
    SheetContent(raw, r);
    var first := Find(Firsts(raw), r.id).value;
    var i :| 0 <= i < |Firsts(raw)| && Firsts(raw)[i] == first;
    NormalizedIsSame(first);
    NormalizedKeeps(first);
    assert !OtherContent(known, NormalizedAll(Firsts(raw))[i]);
  }

  lemma NormalizedKeeps(r: Revision)
    ensures NormalizedRevision(r).id == r.id && NormalizedRevision(r).supersedes == r.supersedes
  {
  }

  lemma SameClaims(a: Revision, b: Revision)
    requires SameContent(a, b)
    ensures a.id == b.id && a.supersedes == b.supersedes
  {
    hide NormalizeNewlines, TrimZeros;
  }

  lemma ContentJoined(known: seq<Revision>, raw: seq<Revision>)
    requires OneContent(known) && SheetOneContent(raw)
    requires forall i :: 0 <= i < |NormalizedAll(Firsts(raw))| ==> !OtherContent(known, NormalizedAll(Firsts(raw))[i])
    ensures OneContent(known + raw)
  {
    hide ContentKey, OtherContent;
    forall a, b | a in known + raw && b in known + raw && a.id == b.id ensures SameContent(a, b) {
      if Has(known, a.id) {
        WithKnown(known, raw, a);
        WithKnown(known, raw, b);
      } else {
        NotInKnown(known, a);
        NotInKnown(known, b);
        SheetContent(raw, a);
        SheetContent(raw, b);
      }
    }
  }

  lemma NotInKnown(known: seq<Revision>, r: Revision)
    requires !Has(known, r.id)
    ensures r !in known
  {
  }

  lemma WithKnown(known: seq<Revision>, raw: seq<Revision>, r: Revision)
    requires OneContent(known) && SheetOneContent(raw) && r in known + raw && Has(known, r.id)
    requires forall i :: 0 <= i < |NormalizedAll(Firsts(raw))| ==> !OtherContent(known, NormalizedAll(Firsts(raw))[i])
    ensures SameContent(Find(known, r.id).value, r)
  {
    hide ContentKey, OtherContent;
    if r in known {
      assert Find(known, r.id).value in known;
    } else {
      KnownContent(known, raw, r);
    }
  }

  // ---------------------------------------------------------------------
  // Chains
  // ---------------------------------------------------------------------

  /** What an accepted import says of the new revisions. */
  ghost predicate NewUsable(known: seq<Revision>, raw: seq<Revision>) {
    forall r :: r in NewOf(known, Firsts(raw)) && r.supersedes.Some? ==>
      MaySupersede(known, NormalizedAll(Firsts(raw)), r.id, r.supersedes.value)
  }

  lemma AcceptedIsUsable(records: seq<Stored>, raw: seq<Revision>)
    requires Import(records, raw).Accepted?
    ensures NewUsable(Flat(records), raw)
  {
    hide ConflictIds, ValidSet, SheetOneContent, OtherContent, MaySupersede, NormalizedRevision, Find;
    var known, firsts := Flat(records), Firsts(raw);
    var sheet := NormalizedAll(firsts);
    forall r | r in NewOf(known, firsts) && r.supersedes.Some? ensures MaySupersede(known, sheet, r.id, r.supersedes.value) {
      var i :| 0 <= i < |firsts| && firsts[i] == r;
      NormalizedKeeps(r);
      assert !Unusable(known, sheet, sheet[i]);
    }
  }

  /** No imported revision waits for an id that the sheet brings. */
  predicate NoWaiting(known: seq<Revision>, raw: seq<Revision>) {
    forall r :: r in known && r.supersedes.Some? && Has(raw, r.supersedes.value) ==> Has(known, r.supersedes.value)
  }

  lemma HasPrefix(list: seq<Revision>, id: string)
    requires list != []
    ensures Has(list[..|list| - 1], id) ==> Has(list, id)
  {
  }

  lemma {:induction false} FindFirst(a: seq<Revision>, b: seq<Revision>, id: string)
    requires !Has(b, id)
    ensures Find(a + b, id) == Find(a, id)
    decreases |b|
  {
    if b == [] {
      assert a + b == a;
    } else {
      assert (a + b)[..|a + b| - 1] == a + b[..|b| - 1];
      assert b[|b| - 1] in b;
      HasPrefix(b, id);
      FindFirst(a, b[..|b| - 1], id);
    }
  }

  lemma {:induction false} FindSecond(a: seq<Revision>, b: seq<Revision>, id: string)
    requires Has(b, id)
    ensures Find(a + b, id) == Find(b, id)
    decreases |b|
  {
    assert (a + b)[..|a + b| - 1] == a + b[..|b| - 1];
    if b[|b| - 1].id != id {
      FindSecond(a, b[..|b| - 1], id);
    }
  }

  /** Chains of the old first revisions stay among them. */
  lemma {:induction false} OldEnd(earlier: seq<Revision>, latest: seq<Revision>, r: Revision, n: nat)
    requires EndsWithin(earlier, r, n) && r in earlier
    requires forall x :: x in earlier && x.supersedes.Some? ==> !Has(latest, x.supersedes.value)
    ensures EndsWithin(earlier + latest, r, n)
    decreases n
  {
    hide Find;
    if r.supersedes.Some? {
      FindFirst(earlier, latest, r.supersedes.value);
      if Older(earlier, r).Some? {
        OldEnd(earlier, latest, Older(earlier, r).value, n - 1);
      }
    }
  }

  /** A chain of new revisions stays in the sheet until it meets an old one. */
  lemma {:induction false} NewEnd(earlier: seq<Revision>, latest: seq<Revision>, sheet: seq<Revision>, r: Revision, n: nat)
    requires EndsWithin(sheet, r, n) && AllEnd(earlier) && r in latest
    requires forall x :: x in earlier && x.supersedes.Some? ==> !Has(latest, x.supersedes.value)
    requires forall id :: Has(latest, id) ==> Find(sheet, id) == Find(latest, id)
    ensures Ends(earlier + latest, r)
    decreases n
  {
    hide Find, EndsWithin;
    EndsStep(earlier + latest, r);
    if Older(earlier + latest, r).Some? {
      var target := r.supersedes.value;
      if Has(latest, target) {
        FindSecond(earlier, latest, target);
        assert Older(sheet, r) == Find(latest, target);
        EndsShorter(sheet, r, n);
        NewEnd(earlier, latest, sheet, Find(latest, target).value, n - 1);
      } else {
        FindFirst(earlier, latest, target);
        OldEnds(earlier, latest, Find(earlier, target).value);
      }
    }
  }

  lemma EndsShorter(list: seq<Revision>, r: Revision, n: nat)
    requires EndsWithin(list, r, n) && Older(list, r).Some?
    ensures n > 0 && EndsWithin(list, Older(list, r).value, n - 1)
  {
  }

  lemma OldEnds(earlier: seq<Revision>, latest: seq<Revision>, r: Revision)
    requires AllEnd(earlier) && r in earlier
    requires forall x :: x in earlier && x.supersedes.Some? ==> !Has(latest, x.supersedes.value)
    ensures Ends(earlier + latest, r)
  {
    hide EndsWithin;
    var i :| 0 <= i < |earlier| && earlier[i] == r;
    assert Ends(earlier, earlier[i]);
    var n: nat :| EndsWithin(earlier, r, n);
    OldEnd(earlier, latest, r, n);
  }

  lemma ChainsJoined(earlier: seq<Revision>, latest: seq<Revision>, sheet: seq<Revision>)
    requires AllEnd(earlier) && AllEnd(sheet) && forall r :: r in latest ==> r in sheet
    requires forall x :: x in earlier && x.supersedes.Some? ==> !Has(latest, x.supersedes.value)
    requires forall id :: Has(latest, id) ==> Find(sheet, id) == Find(latest, id)
    ensures AllEnd(earlier + latest)
  {
    hide EndsWithin, Find;
    var all := earlier + latest;
    forall i | 0 <= i < |all| ensures Ends(all, all[i]) {
      if i < |earlier| {
        OldEnds(earlier, latest, all[i]);
      } else {
        assert all[i] in latest;
        var k :| 0 <= k < |sheet| && sheet[k] == all[i];
        assert Ends(sheet, sheet[k]);
        var n: nat :| EndsWithin(sheet, all[i], n);
        NewEnd(earlier, latest, sheet, all[i], n);
      }
    }
  }

  lemma ClaimsJoined(earlier: seq<Revision>, latest: seq<Revision>)
    requires OneSuccessor(earlier) && OneSuccessor(latest)
    requires forall a, b :: a in earlier && b in latest && b.supersedes.Some? ==> a.supersedes != b.supersedes
    ensures OneSuccessor(earlier + latest)
  {
    var all := earlier + latest;
    forall i, j | 0 <= i < j < |all| && all[i].supersedes.Some? ensures all[j].supersedes != all[i].supersedes {
      if j >= |earlier| {
        assert all[j] == latest[j - |earlier|];
        if i >= |earlier| {
          assert all[i] == latest[i - |earlier|];
        } else {
          assert all[i] in earlier && all[j] in latest;
        }
      }
    }
  }

  lemma {:induction false} NewDiffer(known: seq<Revision>, list: seq<Revision>)
    requires Distinct(Ids(list))
    ensures OneSuccessor(list) ==> OneSuccessor(NewOf(known, list))
    ensures forall id :: Has(NewOf(known, list), id) ==> Find(list, id) == Find(NewOf(known, list), id)
    decreases |list|
  {
    hide Has, IsNew, Distinct, OneSuccessor;
    if list == [] {
      assert NewOf(known, list) == list;
    } else {
      var front, last := list[..|list| - 1], list[|list| - 1];
      assert list == front + [last];
      FrontIsClean(front, last);
      NewDiffer(known, front);
      NewStep(known, front, last);
    }
  }

  lemma FrontIsClean(front: seq<Revision>, last: Revision)
    requires Distinct(Ids(front + [last]))
    ensures Distinct(Ids(front)) && !Has(front, last.id)
    ensures OneSuccessor(front + [last]) ==> OneSuccessor(front) && !SupersedesItself(last)
    ensures OneSuccessor(front + [last]) && last.supersedes.Some? ==> forall r :: r in front ==> r.supersedes != last.supersedes
  {
    var list := front + [last];
    assert list[..|front|] == front;
    assert forall i :: 0 <= i < |front| ==> list[i] == front[i] && Ids(list)[i] == Ids(front)[i];
    forall r | r in front ensures r.id != last.id {
      var i :| 0 <= i < |front| && front[i] == r;
      assert Ids(list)[i] != Ids(list)[|front|];
    }
    if OneSuccessor(list) {
      assert !SupersedesItself(list[|front|]);
      if last.supersedes.Some? {
        forall r | r in front ensures r.supersedes != last.supersedes {
          var i :| 0 <= i < |front| && front[i] == r;
          assert list[i].supersedes.Some? ==> list[|front|].supersedes != list[i].supersedes;
        }
      }
    }
  }

  lemma NewStep(known: seq<Revision>, front: seq<Revision>, last: Revision)
    requires Distinct(Ids(front + [last]))
    requires OneSuccessor(front) ==> OneSuccessor(NewOf(known, front))
    requires forall id :: Has(NewOf(known, front), id) ==> Find(front, id) == Find(NewOf(known, front), id)
    ensures OneSuccessor(front + [last]) ==> OneSuccessor(NewOf(known, front + [last]))
    ensures forall id :: Has(NewOf(known, front + [last]), id) ==> Find(front + [last], id) == Find(NewOf(known, front + [last]), id)
  {
    hide IsNew, Distinct, OneSuccessor;
    FrontIsClean(front, last);
    NewAppend(known, front, last);
    var unseen := NewOf(known, front);
    if OneSuccessor(front + [last]) && IsNew(known, last) {
      LastClaim(unseen, last);
    }
    assert unseen + [] == unseen;
    forall id | Has(NewOf(known, front + [last]), id) ensures Find(front + [last], id) == Find(NewOf(known, front + [last]), id) {
      FindLast(front, last, id);
      FindLast(unseen, last, id);
    }
  }

  lemma FindLast(list: seq<Revision>, r: Revision, id: string)
    ensures Find(list + [r], id) == if r.id == id then Some(r) else Find(list, id)
  {
    assert (list + [r])[..|list|] == list;
  }

  lemma LastClaim(list: seq<Revision>, r: Revision)
    requires OneSuccessor(list) && !SupersedesItself(r)
    requires r.supersedes.Some? ==> forall x :: x in list ==> x.supersedes != r.supersedes
    ensures OneSuccessor(list + [r])
  {
    var all := list + [r];
    forall i, j | 0 <= i < j < |all| && all[i].supersedes.Some? ensures all[j].supersedes != all[i].supersedes {
      assert all[i] in list;
    }
  }

  /** No old first revision claims what a new one claims. */
  lemma NoSharedClaim(known: seq<Revision>, raw: seq<Revision>, a: Revision, b: Revision)
    requires OneContent(known) && NewUsable(known, raw)
    requires a in known && b in NewOf(known, Firsts(raw)) && b.supersedes.Some?
    ensures a.supersedes != b.supersedes
  {
    hide SameContent, IsNew;
    HasMember(known, a);
    var last := Find(known, a.id).value;
    SameClaims(last, a);
    FoundAgain(known, a.id);
    assert MaySupersede(known, NormalizedAll(Firsts(raw)), b.id, b.supersedes.value);
  }

  lemma FoundAgain(list: seq<Revision>, id: string)
    requires Has(list, id)
    ensures Find(list, Find(list, id).value.id) == Find(list, id)
  {
  }

  lemma OldStayOld(known: seq<Revision>, raw: seq<Revision>)
    requires NoWaiting(known, raw)
    ensures forall x :: x in Firsts(known) && x.supersedes.Some? ==> !Has(NewOf(known, Firsts(raw)), x.supersedes.value)
  {
    hide Firsts;
    forall x | x in Firsts(known) && x.supersedes.Some? ensures !Has(NewOf(known, Firsts(raw)), x.supersedes.value) {
      var target := x.supersedes.value;
      if Has(NewOf(known, Firsts(raw)), target) {
        var r := Find(NewOf(known, Firsts(raw)), target).value;
        HasMember(Firsts(raw), r);
        FirstsHave(raw, target);
      }
    }
  }

  /** Joining a sheet that is accepted keeps the chains of the record set in order. */
  lemma SetJoined(known: seq<Revision>, raw: seq<Revision>)
    requires OneContent(known) && ConflictIds(Firsts(known)) == [] && ConflictIds(Firsts(raw)) == []
    requires NewUsable(known, raw) && NoWaiting(known, raw)
    ensures ConflictIds(Firsts(known + raw)) == []
  {
    hide ConflictIds, OneSuccessor, AllEnd, Firsts, NewOf, Has, Find, OneContent, NoWaiting, NewUsable, IsNew;
    var earlier, sheet := Firsts(known), Firsts(raw);
    var latest := NewOf(known, sheet);
    ConflictsMeaning(earlier);
    ConflictsMeaning(sheet);
    FirstsDistinct(raw);
    NewDiffer(known, sheet);
    OldStayOld(known, raw);
    forall a, b | a in earlier && b in latest && b.supersedes.Some? ensures a.supersedes != b.supersedes {
      NoSharedClaim(known, raw, a, b);
    }
    ClaimsJoined(earlier, latest);
    ChainsJoined(earlier, latest, sheet);
    FirstsConcat(known, raw);
    ConflictsMeaning(earlier + latest);
  }

  // ---------------------------------------------------------------------
  // Imports keep the record set in order
  // ---------------------------------------------------------------------

  /** If no imported revision waits for an id of the sheet, the record set stays valid. */
  lemma ImportKeepsValid(records: seq<Stored>, raw: seq<Revision>)
    requires Import(records, raw).Accepted? && NoWaiting(Flat(records), raw)
    ensures ValidSet(Import(records, raw).records)
  {
    hide ConflictIds, Firsts, NoWaiting, NewUsable, Unusable, OtherContent, SheetOneContent, OneContent, IsNew;
    var known := Flat(records);
    AcceptedIsUsable(records, raw);
    SetJoined(known, raw);
    ContentJoined(known, raw);
    FlatAppend(records, raw);
  }

  /** All that is superseded stays known. */
  lemma TargetsStayKnown(records: seq<Stored>, raw: seq<Revision>)
    requires Import(records, raw).Accepted? && TargetsKnown(Flat(records))
    ensures TargetsKnown(Flat(records) + raw)
  {
    hide ConflictIds, NewUsable, Unusable, Has, MaySupersede;
    var known := Flat(records);
    AcceptedIsUsable(records, raw);
    forall r | r in known + raw && r.supersedes.Some? ensures Has(known + raw, r.supersedes.value) {
      HasConcat(known, raw, r.supersedes.value);
      if r !in known {
        RawTargetKnown(known, raw, r);
      }
    }
  }

  lemma RawTargetKnown(known: seq<Revision>, raw: seq<Revision>, r: Revision)
    requires OneContent(known) && SheetOneContent(raw) && NewUsable(known, raw) && TargetsKnown(known)
    requires forall i :: 0 <= i < |NormalizedAll(Firsts(raw))| ==> !OtherContent(known, NormalizedAll(Firsts(raw))[i])
    requires r in raw && r.supersedes.Some?
    ensures Has(known, r.supersedes.value) || Has(raw, r.supersedes.value)
  {
    hide SameContent, OtherContent, Firsts, FirstClaim;
    if Has(known, r.id) {
      KnownContent(known, raw, r);
      SameClaims(Find(known, r.id).value, r);
    } else {
      SheetContent(raw, r);
      var first := Find(Firsts(raw), r.id).value;
      SameClaims(first, r);
      assert first in NewOf(known, Firsts(raw));
      SheetHas(raw, r.supersedes.value);
    }
  }

  /** The normalized sheet has the ids of the raw one. */
  lemma SheetHas(raw: seq<Revision>, id: string)
    ensures Has(NormalizedAll(Firsts(raw)), id) ==> Has(raw, id)
  {
    hide NormalizedRevision;
    var sheet := NormalizedAll(Firsts(raw));
    if Has(sheet, id) {
      var r := Find(sheet, id).value;
      var i :| 0 <= i < |sheet| && sheet[i] == r;
      NormalizedKeeps(Firsts(raw)[i]);
      HasMember(Firsts(raw), Firsts(raw)[i]);
      FirstsHave(raw, id);
    }
  }

  lemma KnownNeverWait(known: seq<Revision>, raw: seq<Revision>)
    requires TargetsKnown(known)
    ensures NoWaiting(known, raw)
  {
  }

  /** An accepted sheet leaves a consistent record set consistent. */
  lemma ImportKeepsConsistent(records: seq<Stored>, raw: seq<Revision>)
    requires Consistent(records) && Import(records, raw).Accepted?
    ensures Consistent(Import(records, raw).records)
  {
    hide ValidSet, TargetsKnown;
    KnownNeverWait(Flat(records), raw);
    ImportKeepsValid(records, raw);
    TargetsStayKnown(records, raw);
    FlatAppend(records, raw);
  }

  /** Any number of sheets, of which some may be rejected. */
  ghost function ImportAll(records: seq<Stored>, sheets: seq<seq<Revision>>): seq<Stored> {
    if sheets == [] then records
    else
      var before := ImportAll(records, sheets[..|sheets| - 1]);
      var last := Import(before, sheets[|sheets| - 1]);
      if last.Accepted? then last.records else before
  }

  lemma {:induction false} ImportsStayConsistent(records: seq<Stored>, sheets: seq<seq<Revision>>)
    requires Consistent(records)
    ensures Consistent(ImportAll(records, sheets))
  {
    hide Consistent, Import;
    if sheets != [] {
      var before := ImportAll(records, sheets[..|sheets| - 1]);
      ImportsStayConsistent(records, sheets[..|sheets| - 1]);
      if Import(before, sheets[|sheets| - 1]).Accepted? {
        ImportKeepsConsistent(before, sheets[|sheets| - 1]);
      }
    }
  }

  lemma SheetPlace(raw: seq<Revision>, r: Revision) returns (i: nat)
    requires r in raw
    ensures i < |Firsts(raw)| && NormalizedAll(Firsts(raw))[i].id == r.id
  {
    hide Firsts, NormalizedRevision, Find;
    HasMember(raw, r);
    FirstsHave(raw, r.id);
    var first := Find(Firsts(raw), r.id).value;
    i :| 0 <= i < |Firsts(raw)| && Firsts(raw)[i] == first;
    NormalizedKeeps(first);
  }

  lemma AnyNew(known: seq<Revision>, raw: seq<Revision>)
    ensures (exists i :: 0 <= i < |NormalizedAll(Firsts(raw))| && IsNew(known, NormalizedAll(Firsts(raw))[i])) <==>
      exists r :: r in raw && !Has(known, r.id)
  {
    hide Firsts, NormalizedRevision, Has;
    var sheet := NormalizedAll(Firsts(raw));
    if i :| 0 <= i < |sheet| && IsNew(known, sheet[i]) {
      NormalizedKeeps(Firsts(raw)[i]);
      assert Firsts(raw)[i] in raw;
    }
    if r :| r in raw && !Has(known, r.id) {
      var i := SheetPlace(raw, r);
      assert IsNew(known, sheet[i]);
    }
  }

  /** Something is stored exactly if the sheet holds an id that is not imported yet. */
  lemma StoredIfNew(records: seq<Stored>, raw: seq<Revision>)
    requires Import(records, raw).Accepted?
    ensures Import(records, raw).records == records <==> forall r :: r in raw ==> Has(Flat(records), r.id)
  {
    hide ConflictIds, ValidSet, SheetOneContent, OtherContent, Unusable, NormalizedAll, Firsts, IsNew, Has;
    AnyNew(Flat(records), raw);
    assert |records + [raw]| == |records| + 1;
  }

  /**
   Two records that supersede each other: the first waits for the second. The stored set is
   valid, the sheet is accepted, and the set is invalid from then on.
   */
  lemma WaitingSetCanCycle(a: Revision, b: Revision)
    requires a.id != b.id && a.supersedes == Some(b.id) && b.supersedes == Some(a.id)
    ensures ValidSet([[a]]) && Import([[a]], [b]) == Accepted([[a], [b]]) && !ValidSet([[a], [b]])
  {
    FlatOne(a);
    FlatAppend([[a]], [b]);
    assert [[a]] + [[b]] == [[a], [b]] && [a] + [b] == [a, b];
    LoneIsValid(a);
    LoneIsValid(b);
    FirstsConcat([a], [b]);
    PairIsCyclic(a, b);
    LoneIsAccepted(a, b);
  }

  lemma FlatOne(a: Revision)
    ensures Flat([[a]]) == [a]
  {
    assert [[a]][..0] == [];
    assert Flat([]) + [a] == [a];
  }

  lemma LoneIsValid(a: Revision)
    requires a.supersedes.Some? && a.supersedes.value != a.id
    ensures Firsts([a]) == [a] && ConflictIds([a]) == [] && OneContent([a]) && SheetOneContent([a])
  {
    assert [a][..0] == [];
    assert Older([a], a).None?;
    assert EndsWithin([a], a, 0);
    ConflictsMeaning([a]);
  }

  lemma PairIsCyclic(a: Revision, b: Revision)
    requires a.id != b.id && a.supersedes == Some(b.id) && b.supersedes == Some(a.id)
    requires Firsts([a, b]) == [a] + NewOf([a], [b])
    ensures ConflictIds(Firsts([a, b])) != []
  {
    var both := [a, b];
    assert [b][..0] == [] && NewOf([a], [b]) == [b];
    assert Firsts(both) == both;
    assert both[..1] == [a];
    forall id | id in {a.id, b.id}
      ensures Find(both, id).Some? && Older(both, Find(both, id).value).Some? && Older(both, Find(both, id).value).value.id in {a.id, b.id}
    {
    }
    forall n: nat ensures !EndsWithin(both, a, n) {
      ClosedNeverEnds(both, {a.id, b.id}, a.id, n);
    }
    assert !Ends(both, both[0]);
    ConflictsMeaning(both);
  }

  lemma LoneIsAccepted(a: Revision, b: Revision)
    requires a.id != b.id && a.supersedes == Some(b.id) && b.supersedes == Some(a.id)
    requires Flat([[a]]) == [a] && ValidSet([[a]]) && Firsts([b]) == [b] && ConflictIds([b]) == [] && SheetOneContent([b])
    ensures Import([[a]], [b]) == Accepted([[a]] + [[b]])
  {
    hide ConflictIds, ValidSet, SheetOneContent, NormalizedRevision;
    var sheet := NormalizedAll([b]);
    NormalizedKeeps(b);
    assert sheet == [NormalizedRevision(b)];
    assert [a][..0] == [] && Find([a], b.id).None?;
    assert IsNew([a], sheet[0]);
    assert FirstClaim(sheet, a.id) == Some(b.id);
    assert MaySupersede([a], sheet, b.id, a.id);
  }

  // ---------------------------------------------------------------------
  // The loops
  // ---------------------------------------------------------------------

  method CollectFirsts(list: seq<Revision>) returns (firsts: seq<Revision>, byId: map<string, Revision>)
    ensures firsts == Firsts(list)
    ensures forall id :: (id in byId <==> Has(firsts, id)) && (id in byId ==> byId[id] == Find(firsts, id).value)
  {
    hide Find, Firsts;
    firsts, byId := [], map[];
    NothingFirst();
    NothingFound();
    assert list[..0] == [];
    for k := 0 to |list|
      invariant firsts == Firsts(list[..k])
      invariant forall id :: (id in byId <==> Has(firsts, id)) && (id in byId ==> byId[id] == Find(firsts, id).value)
    {
      assert list[..k + 1][..k] == list[..k];
      FirstsStep(list[..k + 1]);
      FirstsHave(list[..k], list[k].id);
      if list[k].id !in byId {
        forall id ensures Find(firsts + [list[k]], id) == if list[k].id == id then Some(list[k]) else Find(firsts, id) {
          FindLast(firsts, list[k], id);
        }
        firsts := firsts + [list[k]];
        byId := byId[list[k].id := list[k]];
      }
    }
    assert list[..|list|] == list;
  }

  lemma NothingFound()
    ensures forall id :: !Has([], id)
  {
  }

  /** Every revision against the first one with its id. */
  method ComparesToFirsts(list: seq<Revision>, firsts: seq<Revision>, byId: map<string, Revision>) returns (same: bool)
    requires firsts == Firsts(list)
    requires forall id :: (id in byId <==> Has(firsts, id)) && (id in byId ==> byId[id] == Find(firsts, id).value)
    ensures same <==> SheetOneContent(list)
  {
    hide SameContent, Find, Firsts;
    for k := 0 to |list|
      invariant forall i :: 0 <= i < k ==> SameAsFirst(list, list[i])
    {
      HasMember(list, list[k]);
      FirstsHave(list, list[k].id);
      if !SameContent(byId[list[k].id], list[k]) {
        assert !SameAsFirst(list, list[k]);
        return false;
      }
    }
    same := true;
  }

  lemma OneContentMeaning(list: seq<Revision>)
    ensures SheetOneContent(list) <==> OneContent(list)
  {
    hide ContentKey, Firsts;
    if SheetOneContent(list) {
      forall a, b | a in list && b in list && a.id == b.id ensures SameContent(a, b) {
        SheetContent(list, a);
        SheetContent(list, b);
      }
    }
    if OneContent(list) {
      forall i | 0 <= i < |list| ensures SameAsFirst(list, list[i]) {
        HasMember(list, list[i]);
        FirstsHave(list, list[i].id);
      }
    }
  }

  /** validateRevisionRecordSet */
  method ValidateRecordSet(records: seq<Stored>) returns (ok: bool)
    ensures ok == ValidSet(records)
  {
    hide Firsts, ConflictIds, SheetOneContent, OneContent, Has, Find, Distinct;
    var firsts, byId := CollectFirsts(Flat(records));
    var same := ComparesToFirsts(Flat(records), firsts, byId);
    OneContentMeaning(Flat(records));
    if !same {
      return false;
    }
    FirstsDistinct(Flat(records));
    var conflicts := SupersedesConflicts(firsts);
    ok := conflicts == [];
  }

  /** A revision of the imported map claims this target. */
  ghost predicate ImportedClaim(known: seq<Revision>, target: string) {
    exists r :: r in known && Find(known, r.id) == Some(r) && r.supersedes == Some(target)
  }

  lemma {:induction false} ClaimAppend(sheet: seq<Revision>, r: Revision, target: string)
    ensures FirstClaim(sheet + [r], target) ==
      if FirstClaim(sheet, target).Some? then FirstClaim(sheet, target)
      else if r.supersedes == Some(target) then Some(r.id) else None
    decreases |sheet|
  {
    if sheet == [] {
      assert [r][1..] == [];
    } else {
      assert (sheet + [r])[1..] == sheet[1..] + [r];
      ClaimAppend(sheet[1..], r, target);
    }
  }

  /** Who claims a target: an imported revision, or else the first of the sheet. */
  method SupersededBy(known: seq<Revision>, sheet: seq<Revision>) returns (claimants: map<string, string>)
    ensures forall t :: ImportedClaim(known, t) ==> t in claimants && Has(known, claimants[t])
    ensures forall t :: !ImportedClaim(known, t) ==> (if t in claimants then FirstClaim(sheet, t) == Some(claimants[t]) else FirstClaim(sheet, t).None?)
  {
    hide Find, FirstClaim;
    claimants := map[];
    for k := 0 to |known|
      invariant forall t :: t in claimants <==> exists i :: 0 <= i < k && Find(known, known[i].id) == Some(known[i]) && known[i].supersedes == Some(t)
      invariant forall t :: t in claimants ==> Has(known, claimants[t])
    {
      if known[k].supersedes.Some? && Find(known, known[k].id) == Some(known[k]) {
        claimants := claimants[known[k].supersedes.value := known[k].id];
      }
    }
    ImportedClaims(known, claimants.Keys);
    ghost var imported := claimants.Keys;
    NoClaim();
    assert sheet[..0] == [];
    for k := 0 to |sheet|
      invariant forall t :: t in imported ==> t in claimants && Has(known, claimants[t])
      invariant forall t :: t !in imported ==>
        if t in claimants then FirstClaim(sheet[..k], t) == Some(claimants[t]) else FirstClaim(sheet[..k], t).None?
    {
      assert sheet[..k + 1] == sheet[..k] + [sheet[k]];
      forall t ensures FirstClaim(sheet[..k + 1], t) ==
        if FirstClaim(sheet[..k], t).Some? then FirstClaim(sheet[..k], t)
        else if sheet[k].supersedes == Some(t) then Some(sheet[k].id) else None
      {
        ClaimAppend(sheet[..k], sheet[k], t);
      }
      if sheet[k].supersedes.Some? && sheet[k].supersedes.value !in claimants {
        claimants := claimants[sheet[k].supersedes.value := sheet[k].id];
      }
    }
    assert sheet[..|sheet|] == sheet;
  }

  lemma NoClaim()
    ensures forall t :: FirstClaim([], t).None?
  {
  }

  lemma ImportedClaims(known: seq<Revision>, imported: set<string>)
    requires forall t :: t in imported <==>
      exists i :: 0 <= i < |known| && Find(known, known[i].id) == Some(known[i]) && known[i].supersedes == Some(t)
    ensures forall t :: t in imported <==> ImportedClaim(known, t)
  {
    hide Find;
    forall t ensures t in imported <==> ImportedClaim(known, t) {
      if r :| r in known && Find(known, r.id) == Some(r) && r.supersedes == Some(t) {
        var i :| 0 <= i < |known| && known[i] == r;
      }
    }
  }

  method FindOtherContent(known: seq<Revision>, sheet: seq<Revision>) returns (found: bool)
    ensures found <==> exists i :: 0 <= i < |sheet| && OtherContent(known, sheet[i])
  {
    hide OtherContent;
    for k := 0 to |sheet|
      invariant forall i :: 0 <= i < k ==> !OtherContent(known, sheet[i])
    {
      if OtherContent(known, sheet[k]) {
        return true;
      }
    }
    found := false;
  }

  method FindUnusable(known: seq<Revision>, sheet: seq<Revision>) returns (found: bool)
    ensures found <==> exists i :: 0 <= i < |sheet| && Unusable(known, sheet, sheet[i])
  {
    hide Find, FirstClaim;
    var claimants := SupersededBy(known, sheet);
    for k := 0 to |sheet|
      invariant forall i :: 0 <= i < k ==> !Unusable(known, sheet, sheet[i])
    {
      var r := sheet[k];
      if IsNew(known, r) && r.supersedes.Some? {
        var target := r.supersedes.value;
        var usable := (Has(known, target) || Has(sheet, target)) && target in claimants && claimants[target] == r.id;
        assert usable == MaySupersede(known, sheet, r.id, target);
        if !usable {
          assert Unusable(known, sheet, sheet[k]);
          return true;
        }
      }
    }
    found := false;
  }

  method FindNew(known: seq<Revision>, sheet: seq<Revision>) returns (found: bool)
    ensures found <==> exists i :: 0 <= i < |sheet| && IsNew(known, sheet[i])
  {
    hide IsNew;
    for k := 0 to |sheet|
      invariant forall i :: 0 <= i < k ==> !IsNew(known, sheet[i])
    {
      if IsNew(known, sheet[k]) {
        return true;
      }
    }
    found := false;
  }

  method ImportSheet(records: seq<Stored>, raw: seq<Revision>) returns (result: Imported)
    ensures result == Import(records, raw)
  {
    hide Firsts, ConflictIds, SheetOneContent, ValidSet, Has, Find, Distinct, OtherContent, Unusable, IsNew, NormalizedAll, Flat;
    var valid := ValidateRecordSet(records);
    if !valid {
      return Rejected(RecordsInvalid);
    }
    var firsts, byId := CollectFirsts(raw);
    var same := ComparesToFirsts(raw, firsts, byId);
    if !same {
      return Rejected(SameIdOtherContent);
    }
    FirstsDistinct(raw);
    var conflicts := SupersedesConflicts(firsts);
    if conflicts != [] {
      return Rejected(SheetChainBroken);
    }
    var known, sheet := Flat(records), NormalizedAll(firsts);
    var other := FindOtherContent(known, sheet);
    if other {
      return Rejected(ImportedOtherContent);
    }
    var unusable := FindUnusable(known, sheet);
    if unusable {
      return Rejected(TargetUnusable);
    }
    var anyNew := FindNew(known, sheet);
    result := Accepted(if anyNew then records + [raw] else records);
  }
}
