/**
 The records are read again for every import, sorted by file name (readRevisionRecords in
 packages/cli/src/review-records.ts:161-226): neither the validity of the set nor the decision
 about a sheet depends on the order of the records.
 */
module RevisionOrder {
  import opened Foundations
  import opened RevisionModel
  import opened SupersedesChain
  import opened RevisionImport

  ghost predicate SameMembers(a: seq<Revision>, b: seq<Revision>) {
    forall r :: r in a <==> r in b
  }

  /** The same ids, with the same claims. */
  ghost predicate Alike(a: seq<Revision>, b: seq<Revision>) {
    forall id :: (Has(a, id) <==> Has(b, id)) &&
                 (Has(a, id) && Has(b, id) ==> Find(a, id).value.supersedes == Find(b, id).value.supersedes)
  }

  lemma HaveTheSame(a: seq<Revision>, b: seq<Revision>, id: string)
    requires SameMembers(a, b)
    ensures Has(a, id) <==> Has(b, id)
  {
    if Has(a, id) {
      assert Find(a, id).value in b;
    }
    if Has(b, id) {
      assert Find(b, id).value in a;
    }
  }

  lemma FirstsAlike(a: seq<Revision>, b: seq<Revision>)
    requires SameMembers(a, b) && OneContent(a)
    ensures Alike(Firsts(a), Firsts(b))
  {
    hide ContentKey, Firsts;
    forall id ensures Has(Firsts(a), id) <==> Has(Firsts(b), id) {
      FirstsHave(a, id);
      FirstsHave(b, id);
      HaveTheSame(a, b, id);
    }
    forall id | Has(Firsts(a), id) && Has(Firsts(b), id)
      ensures Find(Firsts(a), id).value.supersedes == Find(Firsts(b), id).value.supersedes
    {
      SameClaims(Find(Firsts(a), id).value, Find(Firsts(b), id).value);
    }
  }

  // ---------------------------------------------------------------------
  // Chains
  // ---------------------------------------------------------------------

  lemma {:induction false} ChainsAlike(a: seq<Revision>, b: seq<Revision>, r: Revision, s: Revision, n: nat)
    requires Alike(a, b) && r.supersedes == s.supersedes
    ensures EndsWithin(a, r, n) <==> EndsWithin(b, s, n)
    decreases n
  {
    hide Find;
    assert r.supersedes.Some? ==> (Has(a, r.supersedes.value) <==> Has(b, r.supersedes.value));
    if n > 0 && Older(a, r).Some? {
      ChainsAlike(a, b, Older(a, r).value, Older(b, s).value, n - 1);
    }
  }

  lemma EndAlike(a: seq<Revision>, b: seq<Revision>, r: Revision, s: Revision)
    requires Alike(a, b) && r.supersedes == s.supersedes
    ensures Ends(a, r) <==> Ends(b, s)
  {
    hide Alike, EndsWithin;
    if Ends(a, r) {
      var n: nat :| EndsWithin(a, r, n);
      ChainsAlike(a, b, r, s, n);
    }
    if Ends(b, s) {
      var n: nat :| EndsWithin(b, s, n);
      ChainsAlike(a, b, r, s, n);
    }
  }

  lemma AlikeBack(a: seq<Revision>, b: seq<Revision>)
    requires Alike(a, b)
    ensures Alike(b, a)
  {
  }

  /** The revision of the other list with the same id and the same claim. */
  lemma Counterpart(a: seq<Revision>, b: seq<Revision>, i: nat) returns (j: nat)
    requires Alike(a, b) && Distinct(Ids(b)) && i < |b|
    ensures j < |a| && a[j].id == b[i].id && a[j].supersedes == b[i].supersedes
  {
    hide Find;
    FindIs(b, i);
    assert Has(b, b[i].id) && Has(a, b[i].id);
    var found := Find(a, b[i].id).value;
    j :| 0 <= j < |a| && a[j] == found;
  }

  lemma OrderlyAlike(a: seq<Revision>, b: seq<Revision>)
    requires Alike(a, b) && Distinct(Ids(b)) && OneSuccessor(a) && AllEnd(a)
    ensures OneSuccessor(b) && AllEnd(b)
  {
    hide Alike, Ends;
    forall i | 0 <= i < |b| ensures Ends(b, b[i]) && !SupersedesItself(b[i]) {
      var j := Counterpart(a, b, i);
      EndAlike(a, b, a[j], b[i]);
    }
    forall i, k | 0 <= i < k < |b| && b[i].supersedes.Some? ensures b[k].supersedes != b[i].supersedes {
      var j := Counterpart(a, b, i);
      var m := Counterpart(a, b, k);
      assert Ids(b)[i] != Ids(b)[k];
      assert j != m;
    }
  }

  lemma ConflictsAlike(a: seq<Revision>, b: seq<Revision>)
    requires Alike(a, b) && Distinct(Ids(a)) && Distinct(Ids(b))
    ensures ConflictIds(a) == [] <==> ConflictIds(b) == []
  {
    hide Alike, ConflictIds, OneSuccessor, AllEnd, Distinct;
    ConflictsMeaning(a);
    ConflictsMeaning(b);
    AlikeBack(a, b);
    if OneSuccessor(a) && AllEnd(a) {
      OrderlyAlike(a, b);
    }
    if OneSuccessor(b) && AllEnd(b) {
      OrderlyAlike(b, a);
    }
  }

  // ---------------------------------------------------------------------
  // Record sets
  // ---------------------------------------------------------------------

  lemma {:induction false} FlatMembers(records: seq<Stored>, r: Revision)
    ensures r in Flat(records) <==> exists stored :: stored in records && r in stored
  {
    if records != [] {
      var front, last := records[..|records| - 1], records[|records| - 1];
      FlatMembers(front, r);
      if r in Flat(front) {
        var stored :| stored in front && r in stored;
        assert stored in records;
      }
      if exists stored :: stored in records && r in stored {
        var stored :| stored in records && r in stored;
        assert stored in front || stored == last;
      }
    }
  }

  lemma ReorderedMembers(records: seq<Stored>, others: seq<Stored>)
    requires multiset(records) == multiset(others)
    ensures SameMembers(Flat(records), Flat(others))
  {
    forall r ensures r in Flat(records) <==> r in Flat(others) {
      FlatMembers(records, r);
      FlatMembers(others, r);
      assert forall stored :: stored in records <==> stored in multiset(records);
      assert forall stored :: stored in others <==> stored in multiset(others);
    }
  }

  lemma ContentReordered(a: seq<Revision>, b: seq<Revision>)
    requires SameMembers(a, b) && OneContent(a)
    ensures OneContent(b)
  {
    hide SameContent;
  }

  lemma ValidReordered(records: seq<Stored>, others: seq<Stored>)
    requires SameMembers(Flat(records), Flat(others)) && ValidSet(records)
    ensures ValidSet(others)
  {
    hide SameMembers, OneContent, Firsts, Flat, Alike, ConflictIds, Distinct;
    var a, b := Flat(records), Flat(others);
    ContentReordered(a, b);
    FirstsAlike(a, b);
    FirstsDistinct(a);
    FirstsDistinct(b);
    ConflictsAlike(Firsts(a), Firsts(b));
  }

  lemma MembersBack(a: seq<Revision>, b: seq<Revision>)
    requires SameMembers(a, b)
    ensures SameMembers(b, a)
  {
  }

  lemma TargetsReordered(a: seq<Revision>, b: seq<Revision>)
    requires SameMembers(a, b) && TargetsKnown(a)
    ensures TargetsKnown(b)
  {
    hide Find;
    forall r | r in b && r.supersedes.Some? ensures Has(b, r.supersedes.value) {
      HaveTheSame(a, b, r.supersedes.value);
    }
  }

  // ---------------------------------------------------------------------
  // The decision about a sheet
  // ---------------------------------------------------------------------

  lemma OtherContentReordered(a: seq<Revision>, b: seq<Revision>, r: Revision)
    requires SameMembers(a, b) && OneContent(a)
    ensures OtherContent(a, r) <==> OtherContent(b, r)
    ensures IsNew(a, r) <==> IsNew(b, r)
  {
    hide ContentKey;
    HaveTheSame(a, b, r.id);
    if Has(a, r.id) {
      assert SameContent(Find(a, r.id).value, Find(b, r.id).value);
    }
  }

  /** With one content for each id, a claim of any revision is a claim of the one that is found. */
  lemma ClaimIsFound(known: seq<Revision>, r: Revision)
    requires OneContent(known) && r in known
    ensures Has(known, r.id) && Find(known, r.id).value in known && Find(known, r.id).value.id == r.id
    ensures Find(known, r.id).value.supersedes == r.supersedes
  {
    hide ContentKey;
    SameClaims(Find(known, r.id).value, r);
  }

  lemma MayReordered(a: seq<Revision>, b: seq<Revision>, sheet: seq<Revision>, id: string, target: string)
    requires SameMembers(a, b) && OneContent(a) && OneContent(b) && MaySupersede(a, sheet, id, target)
    ensures MaySupersede(b, sheet, id, target)
  {
    hide ContentKey, FirstClaim, OneContent, Has;
    HaveTheSame(a, b, target);
    forall other | other in b && Find(b, other.id) == Some(other) ensures other.supersedes != Some(target) {
      ClaimIsFound(a, other);
      var found := Find(a, other.id).value;
      assert found in a && Find(a, found.id) == Some(found);
    }
  }

  lemma UnusableReordered(a: seq<Revision>, b: seq<Revision>, sheet: seq<Revision>, r: Revision)
    requires SameMembers(a, b) && OneContent(a)
    ensures Unusable(a, sheet, r) <==> Unusable(b, sheet, r)
  {
    hide SameMembers, OneContent, MaySupersede, Has, OtherContent;
    ContentReordered(a, b);
    MembersBack(a, b);
    OtherContentReordered(a, b, r);
    if r.supersedes.Some? {
      if MaySupersede(a, sheet, r.id, r.supersedes.value) {
        MayReordered(a, b, sheet, r.id, r.supersedes.value);
      }
      if MaySupersede(b, sheet, r.id, r.supersedes.value) {
        MayReordered(b, a, sheet, r.id, r.supersedes.value);
      }
    }
  }

  /** The same decision: the same reason to refuse, or the same records in some order. */
  ghost predicate SameDecision(a: Imported, b: Imported) {
    if a.Accepted? then b.Accepted? && multiset(a.records) == multiset(b.records) else a == b
  }

  /** Sorting the records in another way changes neither validity nor any decision. */
  lemma OrderDoesNotMatter(records: seq<Stored>, others: seq<Stored>, raw: seq<Revision>)
    requires multiset(records) == multiset(others)
    ensures ValidSet(records) <==> ValidSet(others)
    ensures TargetsKnown(Flat(records)) <==> TargetsKnown(Flat(others))
    ensures SameDecision(Import(records, raw), Import(others, raw))
  {
    hide *;
    var a, b := Flat(records), Flat(others);
    ReorderedMembers(records, others);
    MembersBack(a, b);
    if ValidSet(records) {
      ValidReordered(records, others);
    }
    if ValidSet(others) {
      ValidReordered(others, records);
    }
    if TargetsKnown(a) {
      TargetsReordered(a, b);
    }
    if TargetsKnown(b) {
      TargetsReordered(b, a);
    }
    DecisionReordered(records, others, raw);
  }

  lemma DecisionReordered(records: seq<Stored>, others: seq<Stored>, raw: seq<Revision>)
    requires multiset(records) == multiset(others) && SameMembers(Flat(records), Flat(others))
    requires ValidSet(records) <==> ValidSet(others)
    ensures SameDecision(Import(records, raw), Import(others, raw))
  {
    hide Flat, NormalizedAll, Firsts, SheetOneContent, ConflictIds, OtherContent, Unusable, IsNew, SameMembers, OneContent, ValidSet;
    var a, b, sheet := Flat(records), Flat(others), NormalizedAll(Firsts(raw));
    if ValidSet(records) {
      ValidHasOneContent(records);
      forall i | 0 <= i < |sheet|
        ensures OtherContent(a, sheet[i]) <==> OtherContent(b, sheet[i])
        ensures IsNew(a, sheet[i]) <==> IsNew(b, sheet[i])
        ensures Unusable(a, sheet, sheet[i]) <==> Unusable(b, sheet, sheet[i])
      {
        OtherContentReordered(a, b, sheet[i]);
        UnusableReordered(a, b, sheet, sheet[i]);
      }
    }
  }

  lemma ValidHasOneContent(records: seq<Stored>)
    requires ValidSet(records)
    ensures OneContent(Flat(records))
  {
  }

  // ---------------------------------------------------------------------
  // Imports with the records sorted again
  // ---------------------------------------------------------------------

  function RecordsAfter(before: seq<Stored>, result: Imported): seq<Stored> {
    if result.Accepted? then result.records else before
  }

  /** One sheet after the other; before each one the records are read in some order. */
  ghost predicate Imports(states: seq<seq<Stored>>, sheets: seq<seq<Revision>>) {
    && |states| == |sheets| + 1
    && forall i :: 0 <= i < |sheets| ==>
         multiset(states[i + 1]) == multiset(RecordsAfter(states[i], Import(states[i], sheets[i])))
  }

  /** However the records are sorted in between, a consistent record set stays consistent. */
  lemma {:induction false} SortedImportsStayConsistent(states: seq<seq<Stored>>, sheets: seq<seq<Revision>>, i: nat)
    requires Imports(states, sheets) && Consistent(states[0]) && i < |states|
    ensures Consistent(states[i])
  {
    hide Import, ValidSet, TargetsKnown;
    if i > 0 {
      SortedImportsStayConsistent(states, sheets, i - 1);
      var result := Import(states[i - 1], sheets[i - 1]);
      if result.Accepted? {
        ImportKeepsConsistent(states[i - 1], sheets[i - 1]);
      }
      OrderDoesNotMatter(RecordsAfter(states[i - 1], result), states[i], sheets[i - 1]);
    }
  }
}
