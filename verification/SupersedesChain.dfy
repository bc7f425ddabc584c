/**
 Chains of revisions that supersede each other: no revision supersedes itself, none is superseded
 twice, none leads round a cycle (supersedesConflicts in
 packages/core/src/review/revision-content.ts:142-196 and annotation-logic.ts:290-338).
 */
module SupersedesChain {
  import opened Foundations
  import opened RevisionModel

  /** The last revision with this id, as a Map built from the list has it. */
  function Find(list: seq<Revision>, id: string): (found: Option<Revision>)
    ensures found.Some? ==> found.value in list && found.value.id == id
    ensures found.None? ==> forall r :: r in list ==> r.id != id
  {
    if list == [] then None
    else if list[|list| - 1].id == id then Some(list[|list| - 1])
    else Find(list[..|list| - 1], id)
  }

  function Ids(list: seq<Revision>): (ids: seq<string>)
    ensures |ids| == |list| && forall i :: 0 <= i < |list| ==> ids[i] == list[i].id
  {
    if list == [] then [] else Ids(list[..|list| - 1]) + [list[|list| - 1].id]
  }

  /** What a revision supersedes, if that is in the list. */
  function Older(list: seq<Revision>, r: Revision): Option<Revision> {
    if r.supersedes.Some? then Find(list, r.supersedes.value) else None
  }

  /** Following the chain for so many steps leads out of the list. */
  predicate EndsWithin(list: seq<Revision>, r: Revision, n: nat)
    decreases n
  {
    Older(list, r).None? || (n > 0 && EndsWithin(list, Older(list, r).value, n - 1))
  }

  ghost predicate Ends(list: seq<Revision>, r: Revision) {
    exists n :: EndsWithin(list, r, n)
  }

  predicate SupersedesItself(r: Revision) {
    r.supersedes == Some(r.id)
  }

  /** A claim counts for a target unless the revision claims itself. */
  predicate Claims(r: Revision, target: string) {
    r.supersedes == Some(target) && r.id != target
  }

  predicate ClaimedBefore(list: seq<Revision>, i: nat)
    requires i < |list|
  {
    list[i].supersedes.Some? && exists j :: 0 <= j < i && Claims(list[j], list[i].supersedes.value)
  }

  predicate BadClaim(list: seq<Revision>, i: nat)
    requires i < |list|
  {
    SupersedesItself(list[i]) || ClaimedBefore(list, i)
  }

  /** The ids of bad claims among the first revisions, in order. */
  function BadClaims(list: seq<Revision>, k: nat): seq<string>
    requires k <= |list|
  {
    if k == 0 then [] else BadClaims(list, k - 1) + if BadClaim(list, k - 1) then [list[k - 1].id] else []
  }

  /** The ids of revisions that lead round a cycle. */
  ghost function Cyclic(list: seq<Revision>, k: nat): seq<string>
    requires k <= |list|
  {
    if k == 0 then [] else Cyclic(list, k - 1) + if !Ends(list, list[k - 1]) then [list[k - 1].id] else []
  }

  ghost function ConflictIds(list: seq<Revision>): seq<string> {
    BadClaims(list, |list|) + Cyclic(list, |list|)
  }

  // ---------------------------------------------------------------------
  // What it means that there is no conflict
  // ---------------------------------------------------------------------

  /** No revision is superseded by two revisions of the list, or by itself. */
  ghost predicate OneSuccessor(list: seq<Revision>) {
    && (forall i :: 0 <= i < |list| ==> !SupersedesItself(list[i]))
    && forall i, j :: 0 <= i < j < |list| && list[i].supersedes.Some? ==> list[j].supersedes != list[i].supersedes
  }

  ghost predicate AllEnd(list: seq<Revision>) {
    forall i :: 0 <= i < |list| ==> Ends(list, list[i])
  }

  lemma {:induction false} NoBadClaims(list: seq<Revision>, k: nat)
    requires k <= |list|
    ensures BadClaims(list, k) == [] <==> forall i :: 0 <= i < k ==> !BadClaim(list, i)
  {
    if k > 0 {
      NoBadClaims(list, k - 1);
    }
  }

  lemma {:induction false} NothingCyclic(list: seq<Revision>, k: nat)
    requires k <= |list|
    ensures Cyclic(list, k) == [] <==> forall i :: 0 <= i < k ==> Ends(list, list[i])
  {
    if k > 0 {
      NothingCyclic(list, k - 1);
    }
  }

  lemma ClaimsMeaning(list: seq<Revision>)
    ensures (forall i :: 0 <= i < |list| ==> !BadClaim(list, i)) <==> OneSuccessor(list)
  {
    if forall i :: 0 <= i < |list| ==> !BadClaim(list, i) {
      forall i, j | 0 <= i < j < |list| && list[i].supersedes.Some? ensures list[j].supersedes != list[i].supersedes {
        assert !BadClaim(list, i) && !BadClaim(list, j);
        if list[j].supersedes == list[i].supersedes {
          assert Claims(list[i], list[j].supersedes.value);
        }
      }
      forall i | 0 <= i < |list| ensures !SupersedesItself(list[i]) {
        assert !BadClaim(list, i);
      }
    }
  }

  /** No conflict: nothing superseded twice or by itself, and every chain comes to an end. */
  lemma ConflictsMeaning(list: seq<Revision>)
    ensures ConflictIds(list) == [] <==> OneSuccessor(list) && AllEnd(list)
  {
    NoBadClaims(list, |list|);
    NothingCyclic(list, |list|);
    ClaimsMeaning(list);
  }

  // ---------------------------------------------------------------------
  // The search
  // ---------------------------------------------------------------------

  /** A chain ends exactly if the chain of the next older revision does. */
  lemma EndsStep(list: seq<Revision>, r: Revision)
    ensures Ends(list, r) <==> Older(list, r).None? || Ends(list, Older(list, r).value)
  {
    if Older(list, r).Some? {
      var older := Older(list, r).value;
      if Ends(list, older) {
        var n: nat :| EndsWithin(list, older, n);
        assert EndsWithin(list, r, n + 1);
      }
      if Ends(list, r) {
        var n: nat :| EndsWithin(list, r, n);
        assert EndsWithin(list, older, n - 1);
      }
    } else {
      assert EndsWithin(list, r, 0);
    }
  }

  /** Ids whose revisions all have an older one among them. */
  ghost predicate Closed(list: seq<Revision>, ids: set<string>) {
    forall id :: id in ids ==>
      Find(list, id).Some? && Older(list, Find(list, id).value).Some? && Older(list, Find(list, id).value).value.id in ids
  }

  lemma {:induction false} ClosedNeverEnds(list: seq<Revision>, ids: set<string>, id: string, n: nat)
    requires Closed(list, ids) && id in ids
    ensures !EndsWithin(list, Find(list, id).value, n)
    decreases n
  {
    if n > 0 {
      var older := Older(list, Find(list, id).value).value;
      OlderIsFound(list, Find(list, id).value);
      ClosedNeverEnds(list, ids, older.id, n - 1);
    }
  }

  lemma OlderIsFound(list: seq<Revision>, r: Revision)
    requires Older(list, r).Some?
    ensures Find(list, Older(list, r).value.id) == Older(list, r)
  {
  }

  /** The revision with the first id supersedes the one with the second. */
  predicate Leads(list: seq<Revision>, from: string, to: string) {
    Find(list, from).Some? && Older(list, Find(list, from).value).Some? && Older(list, Find(list, from).value).value.id == to
  }

  /** Ids of the list, each leading to the next. */
  ghost predicate PathFrom(list: seq<Revision>, path: seq<string>) {
    && (forall k :: 0 <= k < |path| ==> Find(list, path[k]).Some?)
    && forall k :: 0 < k < |path| ==> Leads(list, path[k - 1], path[k])
  }

  /** Whatever the last revision leads to, all revisions of the path lead to. */
  lemma {:induction false} PathEnds(list: seq<Revision>, path: seq<string>, k: nat)
    requires PathFrom(list, path) && k < |path|
    ensures Ends(list, Find(list, path[k]).value) <==> Ends(list, Find(list, path[|path| - 1]).value)
    decreases |path| - k
  {
    if k < |path| - 1 {
      assert Leads(list, path[k], path[k + 1]);
      EndsStep(list, Find(list, path[k]).value);
      OlderIsFound(list, Find(list, path[k]).value);
      PathEnds(list, path, k + 1);
    }
  }

  /** A path that comes back to itself has no end. */
  lemma PathIsCyclic(list: seq<Revision>, path: seq<string>, next: string, k: nat)
    requires PathFrom(list, path) && path != [] && Leads(list, path[|path| - 1], next) && next in path && k < |path|
    ensures !Ends(list, Find(list, path[k]).value)
  {
    var ids := ToSet(path);
    forall id | id in ids
      ensures Find(list, id).Some? && Older(list, Find(list, id).value).Some? && Older(list, Find(list, id).value).value.id in ids
    {
      var j :| 0 <= j < |path| && path[j] == id;
      if j < |path| - 1 {
        assert Leads(list, path[j], path[j + 1]);
      }
    }
    forall n: nat ensures !EndsWithin(list, Find(list, path[k]).value, n) {
      ClosedNeverEnds(list, ids, path[k], n);
    }
  }

  /** With differing ids every revision is the one that is found. */
  lemma {:induction false} FindIs(list: seq<Revision>, i: nat)
    requires i < |list| && Distinct(Ids(list))
    ensures Find(list, list[i].id) == Some(list[i])
    decreases |list|
  {
    var last := |list| - 1;
    if i < last {
      assert Ids(list)[i] != Ids(list)[last];
      assert Ids(list[..last]) == Ids(list)[..last];
      FindIs(list[..last], i);
    }
  }

  /** What is remembered of a revision is right. */
  ghost predicate Remembers(list: seq<Revision>, memo: map<string, bool>) {
    forall id :: id in memo ==> Find(list, id).Some? && memo[id] == !Ends(list, Find(list, id).value)
  }

  /** Where the walk stands: behind the path, or at its start. */
  ghost predicate At(list: seq<Revision>, r: Revision, path: seq<string>, current: Option<Revision>) {
    && PathFrom(list, path)
    && (if path == [] then current == Some(r) else path[0] == r.id && current == Older(list, Find(list, path[|path| - 1]).value))
  }

  lemma WalkOn(list: seq<Revision>, r: Revision, path: seq<string>, current: Revision)
    requires At(list, r, path, Some(current)) && Find(list, r.id) == Some(r) && current.supersedes.Some?
    ensures At(list, r, path + [current.id], Find(list, current.supersedes.value)) && Find(list, current.id) == Some(current)
  {
    if path != [] {
      OlderIsFound(list, Find(list, path[|path| - 1]).value);
    }
    var longer := path + [current.id];
    forall k | 0 < k < |longer| ensures Leads(list, longer[k - 1], longer[k]) {
      if k < |path| {
        assert Leads(list, path[k - 1], path[k]);
      }
    }
  }

  /** The walk from one revision, until it ends, comes round, or meets something remembered. */
  method Walk(list: seq<Revision>, r: Revision, memo: map<string, bool>) returns (cyclic: bool, path: seq<string>)
    requires Remembers(list, memo) && Find(list, r.id) == Some(r)
    ensures cyclic == !Ends(list, r) && PathFrom(list, path)
    ensures forall k :: 0 <= k < |path| ==> cyclic == !Ends(list, Find(list, path[k]).value)
  {
    hide EndsWithin, Ends, PathFrom;
    path := [];
    var current := Some(r);
    ghost var left := ToSet(Ids(list));
    NoPath(list);
    while current.Some? && current.value.supersedes.Some?
      invariant At(list, r, path, current)
      invariant left == ToSet(Ids(list)) - ToSet(path)
      decreases left
    {
      var id := current.value.id;
      if id in memo {
        cyclic := memo[id];
        MetRemembered(list, r, path, current.value);
        return;
      }
      if id in path {
        cyclic := true;
        CameRound(list, r, path, current.value);
        return;
      }
      WalkOn(list, r, path, current.value);
      FoundIsListed(list, id);
      path := path + [id];
      left := left - {id};
      current := Find(list, current.value.supersedes.value);
    }
    cyclic := false;
    CameToEnd(list, r, path, current);
  }

  lemma NoPath(list: seq<Revision>)
    ensures PathFrom(list, [])
  {
  }

  lemma FoundIsListed(list: seq<Revision>, id: string)
    requires Find(list, id).Some?
    ensures id in Ids(list)
  {
    var j :| 0 <= j < |list| && list[j] == Find(list, id).value;
    assert Ids(list)[j] == id;
  }

  lemma MetRemembered(list: seq<Revision>, r: Revision, path: seq<string>, current: Revision)
    requires At(list, r, path, Some(current)) && Find(list, r.id) == Some(r)
    ensures Find(list, current.id) == Some(current)
    ensures Ends(list, r) <==> Ends(list, current)
    ensures forall k :: 0 <= k < |path| ==> (Ends(list, Find(list, path[k]).value) <==> Ends(list, current))
  {
    hide EndsWithin, Ends;
    if path != [] {
      var last := Find(list, path[|path| - 1]).value;
      OlderIsFound(list, last);
      EndsStep(list, last);
      forall k | 0 <= k < |path| ensures Ends(list, Find(list, path[k]).value) <==> Ends(list, current) {
        PathEnds(list, path, k);
      }
    }
  }

  lemma CameRound(list: seq<Revision>, r: Revision, path: seq<string>, current: Revision)
    requires At(list, r, path, Some(current)) && Find(list, r.id) == Some(r) && current.id in path
    ensures !Ends(list, r) && forall k :: 0 <= k < |path| ==> !Ends(list, Find(list, path[k]).value)
  {
    hide EndsWithin, Ends;
    assert Leads(list, path[|path| - 1], current.id);
    forall k | 0 <= k < |path| ensures !Ends(list, Find(list, path[k]).value) {
      PathIsCyclic(list, path, current.id, k);
    }
  }

  lemma CameToEnd(list: seq<Revision>, r: Revision, path: seq<string>, current: Option<Revision>)
    requires At(list, r, path, current) && Find(list, r.id) == Some(r)
    requires current.None? || current.value.supersedes.None?
    ensures Ends(list, r) && forall k :: 0 <= k < |path| ==> Ends(list, Find(list, path[k]).value)
  {
    if current.Some? {
      EndsStep(list, current.value);
      MetRemembered(list, r, path, current.value);
    } else {
      EndsStep(list, Find(list, path[|path| - 1]).value);
      forall k | 0 <= k < |path| ensures Ends(list, Find(list, path[k]).value) {
        PathEnds(list, path, k);
      }
    }
  }

  /** Bad claims first, then the revisions that lead round a cycle. */
  method SupersedesConflicts(list: seq<Revision>) returns (conflicts: seq<string>)
    requires Distinct(Ids(list))
    ensures conflicts == ConflictIds(list)
  {
    hide Ends, EndsWithin, Find, PathFrom;
    conflicts := [];
    var claimed: set<string> := {};
    for i := 0 to |list|
      invariant conflicts == BadClaims(list, i)
      invariant forall target :: target in claimed <==> exists j :: 0 <= j < i && Claims(list[j], target)
    {
      if list[i].supersedes.Some? {
        if SupersedesItself(list[i]) || list[i].supersedes.value in claimed {
          conflicts := conflicts + [list[i].id];
        }
        if !SupersedesItself(list[i]) {
          claimed := claimed + {list[i].supersedes.value};
        }
      }
    }
    var memo: map<string, bool> := map[];
    ghost var claims := conflicts;
    for i := 0 to |list|
      invariant conflicts == claims + Cyclic(list, i) && Remembers(list, memo)
    {
      FindIs(list, i);
      var cyclic, path := Walk(list, list[i], memo);
      memo := Remember(list, memo, path, cyclic);
      if cyclic {
        conflicts := conflicts + [list[i].id];
      }
    }
  }

  method Remember(ghost list: seq<Revision>, memo: map<string, bool>, path: seq<string>, cyclic: bool)
    returns (more: map<string, bool>)
    requires Remembers(list, memo) && PathFrom(list, path)
    requires forall k :: 0 <= k < |path| ==> cyclic == !Ends(list, Find(list, path[k]).value)
    ensures Remembers(list, more)
  {
    hide Ends, Find;
    more := memo;
    for k := 0 to |path|
      invariant Remembers(list, more)
    {
      more := more[path[k] := cyclic];
    }
  }
}
