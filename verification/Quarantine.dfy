/**
 Loading the browser's draft storage: invalid requests are set aside, and with them everything
 that would be left hanging (packages/core/src/review/annotation-state.ts:162-267, 448-459).
 */
module Quarantine {
  import opened Foundations
  import opened RevisionModel
  import opened SupersedesChain
  import opened RevisionState
  import opened RevisionRuns

  // ---------------------------------------------------------------------
  // The least closure
  // ---------------------------------------------------------------------

  /** Whatever supersedes one of these ids is one of them. */
  ghost predicate ClosedUp(list: State, ids: set<string>) {
    forall i :: 0 <= i < |list| && list[i].revision.supersedes.Some? && list[i].revision.supersedes.value in ids ==>
      list[i].revision.id in ids
  }

  /** The smallest closed set that holds these ids. */
  ghost predicate LeastClosure(list: State, start: set<string>, all: set<string>) {
    start <= all && ClosedUp(list, all) && forall other :: start <= other && ClosedUp(list, other) ==> all <= other
  }

  /** One request leads to the other in so many steps from the superseded to the superseding. */
  predicate Reaches(list: State, start: set<string>, id: string, n: nat)
    decreases n
  {
    if n == 0 then id in start
    else exists i :: 0 <= i < |list| && list[i].revision.id == id && list[i].revision.supersedes.Some? &&
           Reaches(list, start, list[i].revision.supersedes.value, n - 1)
  }

  ghost predicate Reached(list: State, start: set<string>, id: string) {
    exists n: nat :: Reaches(list, start, id, n)
  }

  lemma {:induction false} ReachedIsIn(list: State, start: set<string>, all: set<string>, id: string, n: nat)
    requires start <= all && ClosedUp(list, all) && Reaches(list, start, id, n)
    ensures id in all
    decreases n
  {
    if n > 0 {
      var i :| 0 <= i < |list| && list[i].revision.id == id && list[i].revision.supersedes.Some? &&
        Reaches(list, start, list[i].revision.supersedes.value, n - 1);
      ReachedIsIn(list, start, all, list[i].revision.supersedes.value, n - 1);
    }
  }

  /** Ids that are known to be reached. */
  ghost predicate AllReached(list: State, start: set<string>, ids: set<string>) {
    forall id :: id in ids ==> Reached(list, start, id)
  }

  /** The least closure is what can be reached. */
  lemma ClosureIsReached(list: State, start: set<string>, all: set<string>)
    requires start <= all && ClosedUp(list, all) && AllReached(list, start, all)
    ensures LeastClosure(list, start, all)
    ensures forall id :: id in all <==> Reached(list, start, id)
  {
    hide Reached, ClosedUp;
    forall other | start <= other && ClosedUp(list, other) ensures all <= other {
      forall id | id in all ensures id in other {
        ReachedBelongs(list, start, other, id);
      }
    }
    forall id | Reached(list, start, id) ensures id in all {
      ReachedBelongs(list, start, all, id);
    }
  }

  lemma ReachedBelongs(list: State, start: set<string>, all: set<string>, id: string)
    requires start <= all && ClosedUp(list, all) && Reached(list, start, id)
    ensures id in all
  {
    var n: nat :| Reaches(list, start, id, n);
    ReachedIsIn(list, start, all, id, n);
  }

  /** The ids to set aside: everything reached from the first rejects. */
  ghost function Quarantined(list: State, start: set<string>): set<string> {
    set id | id in EntryIds(list) + start && Reached(list, start, id)
  }

  /** The quarantine is the least closure of its start. */
  lemma QuarantineIsLeast(list: State, start: set<string>)
    ensures LeastClosure(list, start, Quarantined(list, start))
  {
    var all := Quarantined(list, start);
    forall id | id in start ensures id in all {
      assert Reaches(list, start, id, 0);
    }
    forall i | 0 <= i < |list| && list[i].revision.supersedes.Some? && list[i].revision.supersedes.value in all
      ensures list[i].revision.id in all
    {
      var n: nat :| Reaches(list, start, list[i].revision.supersedes.value, n);
      assert Reaches(list, start, list[i].revision.id, n + 1);
    }
    ClosureIsReached(list, start, all);
  }

  lemma ClosureIsQuarantine(list: State, start: set<string>, all: set<string>)
    requires LeastClosure(list, start, all)
    ensures all == Quarantined(list, start)
  {
    QuarantineIsLeast(list, start);
  }

  datatype Message =
    | StorageUnusable
    | EntryInvalid(index: nat)
    | IdRepeated(index: nat)
    | ChainProblem(id: string)
    | TargetSetAside(id: string, target: string)

  function SuccessorsOf(list: State, id: string): (ids: seq<string>)
    ensures forall s :: s in ids <==> exists i :: 0 <= i < |list| && list[i].revision.supersedes == Some(id) && list[i].revision.id == s
  {
    if list == [] then []
    else
      var last := list[|list| - 1];
      SuccessorsOf(list[..|list| - 1], id) + if last.revision.supersedes == Some(id) then [last.revision.id] else []
  }

  /** Closed except for what the queue still has to look at. */
  ghost predicate ClosedBut(list: State, ids: set<string>, queue: seq<string>) {
    forall i :: 0 <= i < |list| && Hangs(list[i], ids, queue) ==> list[i].revision.id in ids
  }

  /** The request supersedes one of these ids, and the queue does not hold that id. */
  predicate Hangs(e: Entry, ids: set<string>, queue: seq<string>) {
    e.revision.supersedes.Some? && e.revision.supersedes.value in ids && e.revision.supersedes.value !in queue
  }

  function EntryIds(list: State): set<string> {
    set i | 0 <= i < |list| :: list[i].revision.id
  }

  lemma ReachedNext(list: State, start: set<string>, id: string, successor: string)
    requires Reached(list, start, id) && successor in SuccessorsOf(list, id)
    ensures Reached(list, start, successor)
  {
    var n: nat :| Reaches(list, start, id, n);
    var i :| 0 <= i < |list| && list[i].revision.supersedes == Some(id) && list[i].revision.id == successor;
    assert Reaches(list, start, list[i].revision.supersedes.value, n);
    assert Reaches(list, start, successor, n + 1);
  }

  /** Sets aside the successors of one id. */
  method RejectSuccessors(list: State, ghost start: set<string>, id: string, rejected: set<string>, queue: seq<string>)
    returns (more: set<string>, longer: seq<string>, messages: seq<Message>)
    requires AllReached(list, start, rejected) && id in rejected && ClosedBut(list, rejected, queue + [id])
    ensures AllReached(list, start, more) && rejected <= more && ClosedBut(list, more, longer)
    ensures more == rejected ==> longer == queue
    ensures forall x :: x in longer ==> x in queue || x in more
    ensures more - rejected <= EntryIds(list)
    ensures messages == [] <==> more == rejected
  {
    hide Reached;
    more, longer, messages := rejected, queue, [];
    var successors := SuccessorsOf(list, id);
    for k := 0 to |successors|
      invariant AllReached(list, start, more) && rejected <= more && queue <= longer
      invariant more == rejected ==> longer == queue
      invariant forall x :: x in more ==> x in rejected || x in longer
      invariant forall x :: x in longer ==> x in queue || x in more
      invariant forall j :: 0 <= j < k ==> successors[j] in more
      invariant more - rejected <= EntryIds(list)
      invariant messages == [] <==> more == rejected
    {
      var successor := successors[k];
      if successor !in more {
        ReachedNext(list, start, id, successor);
        more := more + {successor};
        messages := messages + [TargetSetAside(successor, id)];
        longer := longer + [successor];
      }
    }
    SuccessorsDone(list, id, rejected, more, queue, longer);
  }

  lemma SuccessorsDone(list: State, id: string, rejected: set<string>, more: set<string>,
                                          queue: seq<string>, longer: seq<string>)
    requires ClosedBut(list, rejected, queue + [id]) && rejected <= more && queue <= longer
    requires forall x :: x in more ==> x in rejected || x in longer
    requires forall s :: s in SuccessorsOf(list, id) ==> s in more
    ensures ClosedBut(list, more, longer)
  {
    forall i | 0 <= i < |list| && Hangs(list[i], more, longer) ensures list[i].revision.id in more {
      var target := list[i].revision.supersedes.value;
      if target == id {
        assert list[i].revision.id in SuccessorsOf(list, id);
      } else {
        assert target !in queue + [id];
        assert Hangs(list[i], rejected, queue + [id]);
      }
    }
  }

  /** withDanglingSuccessors: ends with exactly what can be reached from the first rejects. */
  method WithDanglingSuccessors(list: State, start: seq<string>) returns (rejected: set<string>, messages: seq<Message>)
    ensures rejected == Quarantined(list, ToSet(start))
    ensures messages == [] <==> rejected == ToSet(start)
  {
    hide Reached, SuccessorsOf;
    rejected, messages := ToSet(start), [];
    var queue := start;
    StartIsReached(list, ToSet(start));
    while queue != []
      invariant ToSet(start) <= rejected && AllReached(list, ToSet(start), rejected)
      invariant ClosedBut(list, rejected, queue) && forall x :: x in queue ==> x in rejected
      invariant messages == [] <==> rejected == ToSet(start)
      decreases |EntryIds(list) - rejected|, |queue|
    {
      var id := queue[|queue| - 1];
      var rest := queue[..|queue| - 1];
      assert queue == rest + [id];
      ghost var before := rejected;
      var said: seq<Message>;
      rejected, queue, said := RejectSuccessors(list, ToSet(start), id, rejected, rest);
      messages := messages + said;
      FewerLeft(EntryIds(list), before, rejected);
    }
    ClosureIsReached(list, ToSet(start), rejected);
    ClosureIsQuarantine(list, ToSet(start), rejected);
  }

  lemma StartIsReached(list: State, start: set<string>)
    ensures AllReached(list, start, start)
  {
    forall id | id in start ensures Reached(list, start, id) {
      assert Reaches(list, start, id, 0);
    }
  }

  lemma FewerLeft(all: set<string>, before: set<string>, after: set<string>)
    requires before <= after && after - before <= all
    ensures after == before || |all - after| < |all - before|
  {
    if after != before {
      var x :| x in after && x !in before;
      assert all - before == (all - after) + (after - before);
      assert |all - before| == |all - after| + |after - before|;
      assert x in after - before;
    }
  }

  // ---------------------------------------------------------------------
  // Loading
  // ---------------------------------------------------------------------

  /** One stored entry: not of the right shape, or a request with its flags. */
  datatype StoredEntry = Malformed | Stored(revision: Revision, exported: bool, pending: bool)

  /** What the storage holds: nothing, something that is no page, or the entries of a page. */
  datatype Raw = Absent | Unreadable | Page(entries: seq<StoredEntry>)

  datatype Loaded = Loaded(ok: bool, state: State, messages: seq<Message>)

  function LoadedEntry(entry: StoredEntry): Entry
    requires entry.Stored?
  {
    Entry(entry.revision, entry.exported, entry.pending, true)
  }

  /** The first valid entry of each id. */
  function ValidEntries(entries: seq<StoredEntry>, k: nat): State
    requires k <= |entries|
  {
    if k == 0 then []
    else
      var before, entry := ValidEntries(entries, k - 1), entries[k - 1];
      if entry.Stored? && ValidRevision(entry.revision) && FindRequest(before, entry.revision.id).None?
      then before + [LoadedEntry(entry)]
      else before
  }

  /** The requests that are not set aside, in their order. */
  function Kept(list: State, rejected: set<string>): (kept: State)
    ensures forall e :: e in kept <==> e in list && e.revision.id !in rejected
  {
    if list == [] then []
    else
      var last := list[|list| - 1];
      Kept(list[..|list| - 1], rejected) + if last.revision.id in rejected then [] else [last]
  }

  method ReadEntries(entries: seq<StoredEntry>) returns (valid: State, messages: seq<Message>)
    ensures valid == ValidEntries(entries, |entries|)
    ensures messages == [] <==> |valid| == |entries|
  {
    hide ValidRevision;
    valid, messages := [], [];
    for k := 0 to |entries|
      invariant valid == ValidEntries(entries, k) && |valid| <= k && (messages == [] <==> |valid| == k)
    {
      var entry := entries[k];
      if !entry.Stored? || !ValidRevision(entry.revision) {
        messages := messages + [EntryInvalid(k)];
      } else if FindRequest(valid, entry.revision.id).Some? {
        messages := messages + [IdRepeated(k)];
      } else {
        valid := valid + [LoadedEntry(entry)];
      }
    }
  }

  lemma {:induction false} ValidAreHeld(entries: seq<StoredEntry>, k: nat)
    requires k <= |entries|
    ensures var valid := ValidEntries(entries, k);
      DistinctIds(valid) && |valid| <= k && forall i :: 0 <= i < |valid| ==> ValidRevision(valid[i].revision)
  {
    hide ValidRevision, Distinct;
    if k == 0 {
      assert Ids(Revisions([])) == [];
      NothingTwice();
    } else {
      ValidAreHeld(entries, k - 1);
      var before, entry := ValidEntries(entries, k - 1), entries[k - 1];
      if entry.Stored? && ValidRevision(entry.revision) && FindRequest(before, entry.revision.id).None? {
        NewIdDiffers(before, LoadedEntry(entry));
      }
    }
  }

  lemma NothingTwice()
    ensures Distinct<string>([])
  {
  }

  method TargetsProblemIds(list: State) returns (problems: seq<string>)
    ensures problems == TargetProblems(list, |list|)
  {
    hide TargetProblem;
    problems := [];
    for k := 0 to |list|
      invariant problems == TargetProblems(list, k)
    {
      if TargetProblem(list, list[k]) {
        problems := problems + [list[k].revision.id];
      }
    }
  }

  method SupersedesProblems(list: State) returns (problems: seq<string>)
    requires DistinctIds(list)
    ensures problems == Problems(list)
  {
    var conflicts := SupersedesConflicts(Revisions(list));
    var targets := TargetsProblemIds(list);
    problems := conflicts + targets;
  }

  ghost predicate LoadOk(raw: Raw) {
    raw.Absent? ||
    (raw.Page? && |raw.entries| <= MAX_REVISIONS &&
     var valid := ValidEntries(raw.entries, |raw.entries|);
     |valid| == |raw.entries| && Problems(valid) == [])
  }

  ghost function LoadedState(raw: Raw): State {
    if !raw.Page? || |raw.entries| > MAX_REVISIONS then []
    else
      var valid := ValidEntries(raw.entries, |raw.entries|);
      Kept(valid, Quarantined(valid, ToSet(Problems(valid))))
  }

  /** loadState; it is all right only if nothing had to be set aside. */
  method LoadState(raw: Raw) returns (loaded: Loaded)
    ensures loaded.ok == LoadOk(raw) && loaded.state == LoadedState(raw)
    ensures loaded.ok <==> loaded.messages == []
  {
    hide PageHolds, Problems, Kept, ValidEntries, Quarantined;
    if raw.Absent? {
      return Loaded(true, [], []);
    }
    if raw.Unreadable? || |raw.entries| > MAX_REVISIONS {
      return Loaded(false, [], [StorageUnusable]);
    }
    var valid, messages := ReadEntries(raw.entries);
    ValidAreHeld(raw.entries, |raw.entries|);
    var problems := SupersedesProblems(valid);
    for k := 0 to |problems|
      invariant messages == [] <==> |valid| == |raw.entries| && k == 0
    {
      messages := messages + [ChainProblem(problems[k])];
    }
    var rejected, said := WithDanglingSuccessors(valid, problems);
    NothingRejected(valid, problems);
    messages := messages + said;
    loaded := Loaded(messages == [], Kept(valid, rejected), messages);
  }

  /** With no problem there is nothing to reject. */
  lemma NothingRejected(list: State, problems: seq<string>)
    ensures problems == [] ==> Quarantined(list, ToSet(problems)) == {}
    ensures problems == [] ==> ToSet(problems) == {}
  {
    hide Quarantined;
    if problems == [] {
      assert ToSet(problems) == {};
      assert LeastClosure(list, {}, {});
      ClosureIsQuarantine(list, {}, {});
    }
  }

  // ---------------------------------------------------------------------
  // What is kept
  // ---------------------------------------------------------------------

  lemma {:induction false} BadClaimIsListed(list: seq<Revision>, i: nat, k: nat)
    requires i < k <= |list| && BadClaim(list, i)
    ensures list[i].id in BadClaims(list, k)
    decreases k
  {
    if i < k - 1 {
      BadClaimIsListed(list, i, k - 1);
    }
  }

  lemma {:induction false} CyclicIsListed(list: seq<Revision>, i: nat, k: nat)
    requires i < k <= |list| && !Ends(list, list[i])
    ensures list[i].id in Cyclic(list, k)
    decreases k
  {
    if i < k - 1 {
      CyclicIsListed(list, i, k - 1);
    }
  }

  lemma {:induction false} TargetIsListed(list: State, i: nat, k: nat)
    requires i < k <= |list| && TargetProblem(list, list[i])
    ensures list[i].revision.id in TargetProblems(list, k)
    decreases k
  {
    if i < k - 1 {
      TargetIsListed(list, i, k - 1);
    }
  }

  /** A request that is not set aside has no problem of its own, and its target is not set aside either. */
  lemma {:induction false} KeptIsSound(list: State, rejected: set<string>, i: nat)
    requires LeastClosure(list, ToSet(Problems(list)), rejected) && i < |list| && list[i].revision.id !in rejected
    ensures !BadClaim(Revisions(list), i) && Ends(Revisions(list), list[i].revision) && !TargetProblem(list, list[i])
    ensures list[i].revision.supersedes.Some? ==> list[i].revision.supersedes.value !in rejected
  {
    hide BadClaim, Ends, TargetProblem;
    var id := list[i].revision.id;
    assert id !in ToSet(Problems(list));
    assert id !in Problems(list);
    if BadClaim(Revisions(list), i) {
      BadClaimIsListed(Revisions(list), i, |list|);
    }
    if !Ends(Revisions(list), list[i].revision) {
      CyclicIsListed(Revisions(list), i, |list|);
    }
    if TargetProblem(list, list[i]) {
      TargetIsListed(list, i, |list|);
    }
  }

  lemma {:induction false} KeptDistinct(list: State, rejected: set<string>)
    requires DistinctIds(list)
    ensures DistinctIds(Kept(list, rejected)) && |Kept(list, rejected)| <= |list|
    decreases |list|
  {
    hide Distinct;
    if list == [] {
      NothingTwice();
    } else {
      var front, last := list[..|list| - 1], list[|list| - 1];
      assert list == front + [last];
      RevisionsAppend(front, last);
      IdsAppend(Revisions(front), last.revision);
      RevisionRuns.DistinctFront(Ids(Revisions(front)), last.revision.id);
      KeptDistinct(front, rejected);
      if last.revision.id !in rejected {
        NotAmong(front, last.revision.id, rejected);
        NewIdDiffers(Kept(front, rejected), last);
      } else {
        assert Kept(list, rejected) == Kept(front, rejected) + [] == Kept(front, rejected);
      }
    }
  }

  lemma NotAmong(list: State, id: string, rejected: set<string>)
    requires id !in Ids(Revisions(list))
    ensures FindRequest(Kept(list, rejected), id).None?
  {
    forall e | e in Kept(list, rejected) ensures e.revision.id != id {
      var i :| 0 <= i < |list| && list[i] == e;
      assert Ids(Revisions(list))[i] == e.revision.id;
    }
  }

  /** Where the target of a kept request is. */
  lemma KeptTarget(list: State, rejected: set<string>, i: nat) returns (j: nat)
    requires DistinctIds(list) && LeastClosure(list, ToSet(Problems(list)), rejected)
    requires i < |list| && list[i].revision.id !in rejected && list[i].revision.supersedes.Some?
    ensures j < |list| && list[j].revision.id == list[i].revision.supersedes.value && list[j].exported
    ensures list[j].revision.id !in rejected && list[j] in Kept(list, rejected)
  {
    hide Problems, Ends;
    KeptIsSound(list, rejected, i);
    assert !SupersedesItself(list[i].revision);
    var target := Target(list, list[i].revision.supersedes.value).value;
    j :| 0 <= j < |list| && list[j] == target;
  }

  lemma KeptPlace(list: State, rejected: set<string>, k: nat) returns (i: nat)
    requires k < |Kept(list, rejected)|
    ensures i < |list| && list[i] == Kept(list, rejected)[k] && list[i].revision.id !in rejected
  {
    var e := Kept(list, rejected)[k];
    assert e in Kept(list, rejected);
    i :| 0 <= i < |list| && list[i] == e;
  }

  lemma KeptTargetsHeld(list: State, rejected: set<string>)
    requires DistinctIds(list) && LeastClosure(list, ToSet(Problems(list)), rejected)
    ensures TargetsHeld(Kept(list, rejected))
  {
    hide Problems, LeastClosure, DistinctIds;
    var kept := Kept(list, rejected);
    forall k | 0 <= k < |kept| && kept[k].revision.supersedes.Some?
      ensures exists j :: 0 <= j < |kept| && kept[j].revision.id == kept[k].revision.supersedes.value && kept[j].exported
    {
      var i := KeptPlace(list, rejected, k);
      var j := KeptTarget(list, rejected, i);
      var l :| 0 <= l < |kept| && kept[l] == list[j];
    }
  }

  lemma NoTwoClaims(list: seq<Revision>, i: nat, j: nat)
    requires i < j < |list| && !BadClaim(list, i) && !BadClaim(list, j) && list[i].supersedes.Some?
    ensures list[j].supersedes != list[i].supersedes
  {
    assert Claims(list[i], list[i].supersedes.value);
  }

  lemma OneClaim(list: State, rejected: set<string>, i: nat, j: nat)
    requires LeastClosure(list, ToSet(Problems(list)), rejected) && i < |list| && j < |list| && i != j
    requires list[i].revision.id !in rejected && list[j].revision.id !in rejected && list[i].revision.supersedes.Some?
    ensures list[j].revision.supersedes != list[i].revision.supersedes
  {
    hide Problems, LeastClosure, Ends, TargetProblem;
    KeptIsSound(list, rejected, i);
    KeptIsSound(list, rejected, j);
    if i < j {
      NoTwoClaims(Revisions(list), i, j);
    } else if list[j].revision.supersedes.Some? {
      NoTwoClaims(Revisions(list), j, i);
    }
  }

  lemma KeptOneSuccessor(list: State, rejected: set<string>)
    requires DistinctIds(list) && LeastClosure(list, ToSet(Problems(list)), rejected)
    ensures OneSuccessor(Revisions(Kept(list, rejected)))
  {
    hide Problems, LeastClosure, DistinctIds, Ends, TargetProblem;
    var kept := Kept(list, rejected);
    KeptDistinct(list, rejected);
    forall k | 0 <= k < |kept| ensures !SupersedesItself(kept[k].revision) {
      var i := KeptPlace(list, rejected, k);
      KeptIsSound(list, rejected, i);
    }
    forall k, l | 0 <= k < l < |kept| && kept[k].revision.supersedes.Some?
      ensures kept[l].revision.supersedes != kept[k].revision.supersedes
    {
      var i := KeptPlace(list, rejected, k);
      var j := KeptPlace(list, rejected, l);
      KeptApart(kept, k, l);
      OneClaim(list, rejected, i, j);
    }
  }

  lemma KeptApart(kept: State, k: nat, l: nat)
    requires DistinctIds(kept) && k < l < |kept|
    ensures kept[k] != kept[l]
  {
    IdsApart(kept, k, l);
  }

  /** The next older revision of a kept one is the same in both lists. */
  lemma KeptOlder(list: State, rejected: set<string>, i: nat)
    requires DistinctIds(list) && LeastClosure(list, ToSet(Problems(list)), rejected)
    requires i < |list| && list[i].revision.id !in rejected
    ensures Older(Revisions(Kept(list, rejected)), list[i].revision) == Older(Revisions(list), list[i].revision)
    ensures Older(Revisions(list), list[i].revision).Some? ==>
      exists j :: 0 <= j < |list| && list[j].revision == Older(Revisions(list), list[i].revision).value && list[j].revision.id !in rejected
  {
    hide Problems, LeastClosure, Distinct;
    var kept := Kept(list, rejected);
    if list[i].revision.supersedes.Some? {
      var j := KeptTarget(list, rejected, i);
      KeptDistinct(list, rejected);
      var l :| 0 <= l < |kept| && kept[l] == list[j];
      FindIs(Revisions(list), j);
      FindIs(Revisions(kept), l);
    }
  }

  lemma {:induction false} KeptEnds(list: State, rejected: set<string>, i: nat, n: nat)
    requires DistinctIds(list) && LeastClosure(list, ToSet(Problems(list)), rejected)
    requires i < |list| && list[i].revision.id !in rejected && EndsWithin(Revisions(list), list[i].revision, n)
    ensures EndsWithin(Revisions(Kept(list, rejected)), list[i].revision, n)
    decreases n
  {
    hide Problems, LeastClosure, DistinctIds, Older, Kept;
    KeptOlder(list, rejected, i);
    if Older(Revisions(list), list[i].revision).Some? {
      var j :| 0 <= j < |list| && list[j].revision == Older(Revisions(list), list[i].revision).value && list[j].revision.id !in rejected;
      KeptEnds(list, rejected, j, n - 1);
    }
  }

  lemma KeptAllEnd(list: State, rejected: set<string>)
    requires DistinctIds(list) && LeastClosure(list, ToSet(Problems(list)), rejected)
    ensures AllEnd(Revisions(Kept(list, rejected)))
  {
    hide Problems, LeastClosure, DistinctIds, EndsWithin, BadClaim, TargetProblem;
    var kept := Kept(list, rejected);
    forall k | 0 <= k < |kept| ensures Ends(Revisions(kept), Revisions(kept)[k]) {
      var i := KeptPlace(list, rejected, k);
      KeptIsSound(list, rejected, i);
      var n: nat :| EndsWithin(Revisions(list), list[i].revision, n);
      KeptEnds(list, rejected, i, n);
    }
  }

  /** Whatever the storage holds, what is loaded from it is in order. */
  lemma LoadedHolds(raw: Raw)
    ensures PageHolds(LoadedState(raw))
  {
    hide ValidRevision, Problems, DistinctIds, TargetsHeld, OneSuccessor, AllEnd, LeastClosure, Quarantined;
    if !raw.Page? || |raw.entries| > MAX_REVISIONS {
      NothingHolds();
    } else {
      var valid := ValidEntries(raw.entries, |raw.entries|);
      var rejected := Quarantined(valid, ToSet(Problems(valid)));
      ValidAreHeld(raw.entries, |raw.entries|);
      QuarantineIsLeast(valid, ToSet(Problems(valid)));
      KeptDistinct(valid, rejected);
      KeptTargetsHeld(valid, rejected);
      KeptOneSuccessor(valid, rejected);
      KeptAllEnd(valid, rejected);
      KeptValid(valid, rejected);
    }
  }

  lemma KeptValid(list: State, rejected: set<string>)
    requires forall i :: 0 <= i < |list| ==> ValidRevision(list[i].revision)
    ensures forall k :: 0 <= k < |Kept(list, rejected)| ==> ValidRevision(Kept(list, rejected)[k].revision)
  {
    hide ValidRevision;
    forall k | 0 <= k < |Kept(list, rejected)| ensures ValidRevision(Kept(list, rejected)[k].revision) {
      var i := KeptPlace(list, rejected, k);
    }
  }

  lemma NothingHolds()
    ensures PageHolds([])
  {
    assert Ids(Revisions([])) == [];
  }

  // ---------------------------------------------------------------------
  // Saving and loading
  // ---------------------------------------------------------------------

  /** saveDraft: the requests with their two flags. */
  function Saved(state: State): (entries: seq<StoredEntry>)
    ensures |entries| == |state|
    ensures forall i :: 0 <= i < |state| ==> entries[i] == Stored(state[i].revision, state[i].exported, state[i].pending)
  {
    if state == [] then []
    else
      var last := state[|state| - 1];
      Saved(state[..|state| - 1]) + [Stored(last.revision, last.exported, last.pending)]
  }

  /** The same requests, marked as loaded from the storage. */
  function FromStorage(state: State): (loaded: State)
    ensures |loaded| == |state| && forall i :: 0 <= i < |state| ==> loaded[i] == state[i].(fromStorage := true)
  {
    if state == [] then [] else FromStorage(state[..|state| - 1]) + [state[|state| - 1].(fromStorage := true)]
  }

  /** One more entry, if none before it is lost. */
  lemma ValidStep(entries: seq<StoredEntry>, k: nat)
    requires k < |entries|
    ensures var before, entry := ValidEntries(entries, k), entries[k];
      ValidEntries(entries, k + 1) ==
        if entry.Stored? && ValidRevision(entry.revision) && FindRequest(before, entry.revision.id).None?
        then before + [LoadedEntry(entry)] else before
    ensures |ValidEntries(entries, k)| <= k
  {
    hide ValidRevision, FindRequest;
    ValidAreHeld(entries, k);
  }

  lemma {:induction false} ValidAreSaved(state: State, k: nat)
    requires k <= |state| && |ValidEntries(Saved(state), k)| == k
    ensures ValidEntries(Saved(state), k) == FromStorage(state)[..k]
  {
    hide ValidRevision, FindRequest, ValidEntries;
    if k == 0 {
      NoEntries(Saved(state));
    } else {
      ValidStep(Saved(state), k - 1);
      ValidAreSaved(state, k - 1);
      assert FromStorage(state)[..k] == FromStorage(state)[..k - 1] + [FromStorage(state)[k - 1]];
    }
  }

  lemma NoEntries(entries: seq<StoredEntry>)
    ensures ValidEntries(entries, 0) == []
  {
  }

  lemma {:induction false} SavedAreValid(state: State, k: nat)
    requires k <= |state| && DistinctIds(state) && forall i :: 0 <= i < |state| ==> ValidRevision(state[i].revision)
    ensures |ValidEntries(Saved(state), k)| == k
  {
    hide ValidRevision, DistinctIds, ValidEntries;
    if k == 0 {
      NoEntries(Saved(state));
    } else {
      SavedAreValid(state, k - 1);
      ValidAreSaved(state, k - 1);
      ValidStep(Saved(state), k - 1);
      NotFoundBefore(state, k - 1);
    }
  }

  lemma NotFoundBefore(state: State, k: nat)
    requires DistinctIds(state) && k < |state|
    ensures FindRequest(FromStorage(state)[..k], state[k].revision.id).None?
  {
    hide DistinctIds;
    var before := FromStorage(state)[..k];
    forall e | e in before ensures e.revision.id != state[k].revision.id {
      var i :| 0 <= i < k && before[i] == e;
      IdsApart(state, i, k);
    }
  }

  /** The mark of the storage does not matter to chains and targets. */
  lemma MarkedHolds(state: State)
    ensures PageHolds(FromStorage(state)) <==> PageHolds(state)
  {
    hide ValidRevision, DistinctIds, OneSuccessor, AllEnd;
    var marked := FromStorage(state);
    assert Revisions(marked) == Revisions(state);
    SameIds(state, marked);
    if TargetsHeld(state) {
      MarkedTargets(state, marked);
    }
    if TargetsHeld(marked) {
      MarkedTargets(marked, state);
    }
  }

  lemma SameIds(a: State, b: State)
    requires Revisions(a) == Revisions(b)
    ensures DistinctIds(a) <==> DistinctIds(b)
  {
  }

  lemma MarkedTargets(a: State, b: State)
    requires |a| == |b| && forall i :: 0 <= i < |a| ==> a[i].revision == b[i].revision && a[i].exported == b[i].exported
    requires TargetsHeld(a)
    ensures TargetsHeld(b)
  {
    forall i | 0 <= i < |b| && b[i].revision.supersedes.Some?
      ensures exists j :: 0 <= j < |b| && b[j].revision.id == b[i].revision.supersedes.value && b[j].exported
    {
      var j :| 0 <= j < |a| && a[j].revision.id == a[i].revision.supersedes.value && a[j].exported;
      assert b[j].exported;
    }
  }

  lemma {:induction false} KeepAll(list: State)
    ensures Kept(list, {}) == list
  {
    if list != [] {
      var front, last := list[..|list| - 1], list[|list| - 1];
      KeepAll(front);
      assert Kept(list, {}) == front + [last];
    }
  }

  /** What was saved is loaded without a message exactly if the page was in order, and then it is the same page. */
  lemma SavedIsLoaded(state: State)
    ensures LoadOk(Page(Saved(state))) <==> PageHolds(state)
    ensures PageHolds(state) ==> LoadedState(Page(Saved(state))) == FromStorage(state)
  {
    hide ValidRevision, Problems, DistinctIds, TargetsHeld, OneSuccessor, AllEnd, Quarantined, ValidEntries;
    var raw := Page(Saved(state));
    var valid := ValidEntries(Saved(state), |state|);
    ValidAreHeld(Saved(state), |state|);
    MarkedHolds(state);
    assert FromStorage(state)[..|state|] == FromStorage(state);
    ProblemsMeaning(valid);
    if PageHolds(state) {
      SavedAreValid(state, |state|);
    }
    if |valid| == |state| {
      ValidAreSaved(state, |state|);
      NothingRejected(valid, Problems(valid));
      KeepAll(valid);
    }
  }
}
