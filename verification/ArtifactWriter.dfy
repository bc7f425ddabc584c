/**
 Writing goal plan artifacts (packages/cli/src/review-goal-plan.ts:147-359): each is created by
 a hard link from a temporary file, an equal one counts as written, and nothing is replaced.
 Other processes may add names at any time, but change none. A folder is calm if nobody else
 writes, no operation fails, and no directory on the way is a symbolic link.
 */
module ArtifactWriter {
  import opened Foundations

  type Bytes = string

  datatype Entry = FileOf(bytes: Bytes) | SymlinkTo | OtherEntry

  datatype Artifact = Artifact(path: string, bytes: Bytes)

  datatype Kind = Created | Matched | SymlinkThere | Conflict | WriteError

  datatype Written =
    | AllWritten(written: seq<string>)
    | PathUnsafe(written: seq<string>)
    | PlanConflict(path: string, written: seq<string>)
    | Failed(written: seq<string>)

  type Entries = map<string, Entry>

  /** Nothing that was there has changed. */
  ghost predicate Keeps(before: Entries, after: Entries) {
    forall path :: path in before ==> path in after && after[path] == before[path]
  }

  predicate InPlace(entries: Entries, artifact: Artifact) {
    artifact.path in entries && entries[artifact.path] == FileOf(artifact.bytes)
  }

  /** Another file is in the place of the artifact. */
  predicate Differs(entries: Entries, artifact: Artifact) {
    artifact.path in entries && entries[artifact.path].FileOf? && entries[artifact.path].bytes != artifact.bytes
  }

  function Paths(artifacts: seq<Artifact>): (paths: seq<string>)
    ensures |paths| == |artifacts| && forall i :: 0 <= i < |artifacts| ==> paths[i] == artifacts[i].path
  {
    if artifacts == [] then [] else Paths(artifacts[..|artifacts| - 1]) + [artifacts[|artifacts| - 1].path]
  }

  // ---------------------------------------------------------------------
  // What a calm run does
  // ---------------------------------------------------------------------

  const READ_EXISTING_MAX_BYTES := 8 * 1024 * 1024

  /** The name is free, or has these bytes already and is not too large to be compared. */
  predicate Accepts(entries: Entries, artifact: Artifact) {
    artifact.path !in entries || (InPlace(entries, artifact) && |artifact.bytes| <= READ_EXISTING_MAX_BYTES)
  }

  function Added(entries: Entries, artifact: Artifact): Entries {
    if artifact.path in entries then entries else entries[artifact.path := FileOf(artifact.bytes)]
  }

  /** One artifact after the other, where its name is free. */
  function Filled(entries: Entries, artifacts: seq<Artifact>): Entries {
    if artifacts == [] then entries else Added(Filled(entries, artifacts[..|artifacts| - 1]), artifacts[|artifacts| - 1])
  }

  predicate AllAccepted(entries: Entries, artifacts: seq<Artifact>, n: nat)
    requires n <= |artifacts|
  {
    forall k :: 0 <= k < n ==> Accepts(Filled(entries, artifacts[..k]), artifacts[k])
  }

  class Folder {
    var entries: Entries
    var temporary: map<int, Bytes>
    const calm: bool

    constructor (entries: Entries, calm: bool)
      ensures this.entries == entries && this.calm == calm && temporary == map[]
    {
      this.entries, this.calm, temporary := entries, calm, map[];
    }

    /** Whether an operation fails, or a directory turns out to be a symbolic link. */
    method Succeeds() returns (ok: bool)
      ensures calm ==> ok
    {
      ok := *;
      ok := ok || calm;
    }

    /** A random name. */
    method TemporaryName() returns (id: int)
      ensures calm ==> id !in temporary
    {
      id := *;
      if calm {
        id := 0;
        ghost var rest := set k | k in temporary && 0 <= k;
        while id in temporary
          invariant rest == set k | k in temporary && id <= k
          decreases rest
        {
          rest := rest - {id};
          id := id + 1;
        }
      }
    }

    /** Other processes add names. */
    method LetOthersRun()
      modifies this`entries
      ensures Keeps(old(entries), entries) && (calm ==> entries == old(entries))
    {
      var steps: int := *;
      if calm {
        steps := 0;
      }
      for i := 0 to if steps < 0 then 0 else steps
        invariant Keeps(old(entries), entries) && (calm ==> entries == old(entries))
      {
        var path: string := *;
        var entry: Entry := *;
        if path !in entries {
          entries := entries[path := entry];
        }
      }
    }

    /** The temporary file; a failure may leave a part of the bytes in it, or the file itself. */
    method WriteTemporary(bytes: Bytes) returns (ok: bool, id: int)
      modifies this`temporary
      ensures ok ==> id in temporary && temporary[id] == bytes
      ensures calm ==> ok
    {
      id := TemporaryName();
      ok := Succeeds();
      if id in temporary {
        return false, id;
      }
      var size: int := *;
      if 0 <= size <= |bytes| {
        temporary := temporary[id := bytes[..size]];
      }
      if ok {
        temporary := temporary[id := bytes];
      } else {
        Unlink(id);
      }
    }

    method Unlink(id: int)
      modifies this`temporary
      ensures temporary == old(temporary) || temporary == old(temporary) - {id}
    {
      var ok: bool := *;
      if ok {
        temporary := temporary - {id};
      }
    }

    /** readExistingArtifact: what is there, if it can be read. */
    method ReadExisting(path: string) returns (there: Entry)
      ensures there.FileOf? || there.SymlinkTo? ==> path in entries && entries[path] == there
      ensures there.FileOf? ==> |there.bytes| <= READ_EXISTING_MAX_BYTES
      ensures calm && path in entries ==> there == Readable(entries[path])
    {
      var ok := Succeeds();
      there := if ok && path in entries then Readable(entries[path]) else OtherEntry;
    }

    /** writeArtifactExclusive */
    method WriteArtifact(artifact: Artifact) returns (kind: Kind)
      modifies this
      ensures Keeps(old(entries), entries)
      ensures kind == Created ==> artifact.path !in old(entries)
      ensures kind == Created || kind == Matched ==> InPlace(entries, artifact)
      ensures kind == SymlinkThere ==> artifact.path in entries && entries[artifact.path] == SymlinkTo
      ensures kind == Conflict ==> Differs(entries, artifact)
      ensures InPlace(old(entries), artifact) ==> kind == Matched || kind == WriteError
      ensures calm ==> (kind == Created || kind == Matched <==> Accepts(old(entries), artifact))
      ensures calm ==> entries == Added(old(entries), artifact)
    {
      var ok, id := WriteTemporary(artifact.bytes);
      if !ok {
        return WriteError;
      }
      LetOthersRun();
      var linked := Succeeds();
      if linked && artifact.path !in entries {
        entries := entries[artifact.path := FileOf(temporary[id])];
        Unlink(id);
        return Created;
      }
      Unlink(id);
      if !linked {
        return WriteError;
      }
      LetOthersRun();
      var existing := ReadExisting(artifact.path);
      kind := match existing
        case SymlinkTo => SymlinkThere
        case FileOf(bytes) => if bytes == artifact.bytes then Matched else Conflict
        case OtherEntry => WriteError;
    }

    /** writeGoalPlanArtifacts: an accepted run leaves exactly the planned bytes, a stopped one what it has written. */
    method WriteArtifacts(artifacts: seq<Artifact>) returns (result: Written)
      modifies this
      ensures Keeps(old(entries), entries)
      ensures result.written <= Paths(artifacts) && AllInPlace(entries, artifacts, |result.written|)
      ensures result.AllWritten? ==> |result.written| == |artifacts|
      ensures result.PlanConflict? ==>
        var k := |result.written|; k < |artifacts| && result.path == artifacts[k].path && Differs(entries, artifacts[k])
      ensures calm ==> (result.AllWritten? <==> AllAccepted(old(entries), artifacts, |artifacts|))
      ensures calm && result.AllWritten? ==> entries == Filled(old(entries), artifacts)
    {
      hide Accepts, Added, Filled, AllAccepted, InPlace, Differs, Keeps;
      var written: seq<string> := [];
      KeepsTrans(entries, entries, entries);
      NothingFilled(entries, artifacts);
      var isSafe := Succeeds();
      if !isSafe {
        return PathUnsafe([]);
      }
      var made := Succeeds();
      if !made {
        return Failed([]);
      }
      isSafe := Succeeds();
      if !isSafe {
        return PathUnsafe([]);
      }
      for k := 0 to |artifacts|
        invariant Keeps(old(entries), entries) && written == Paths(artifacts)[..k] && AllInPlace(entries, artifacts, k)
        invariant calm ==> AllAccepted(old(entries), artifacts, k) && entries == Filled(old(entries), artifacts[..k])
      {
        ghost var earlier := entries;
        LetOthersRun();
        KeepsTrans(old(entries), earlier, entries);
        StayInPlace(earlier, entries, artifacts, k);
        isSafe := Succeeds();
        if !isSafe {
          return PathUnsafe(written);
        }
        ghost var before := entries;
        var kind := WriteArtifact(artifacts[k]);
        KeepsTrans(old(entries), before, entries);
        StayInPlace(before, entries, artifacts, k);
        NextFilled(old(entries), artifacts, k);
        if kind == SymlinkThere {
          return PathUnsafe(written);
        }
        if kind == Conflict {
          return PlanConflict(artifacts[k].path, written);
        }
        if kind == WriteError {
          return Failed(written);
        }
        written := written + [artifacts[k].path];
      }
      assert artifacts[..|artifacts|] == artifacts;
      result := AllWritten(written);
    }
  }

  /** What reading an entry gives: nothing of a file that is too large. */
  function Readable(entry: Entry): Entry {
    if entry.FileOf? && |entry.bytes| > READ_EXISTING_MAX_BYTES then OtherEntry else entry
  }

  /** The first artifacts are in place. */
  predicate AllInPlace(entries: Entries, artifacts: seq<Artifact>, k: int) {
    forall i :: 0 <= i < k && i < |artifacts| ==> InPlace(entries, artifacts[i])
  }

  lemma KeepsTrans(a: Entries, b: Entries, c: Entries)
    ensures Keeps(a, a)
    ensures Keeps(a, b) && Keeps(b, c) ==> Keeps(a, c)
  {
  }

  lemma NothingFilled(entries: Entries, artifacts: seq<Artifact>)
    ensures AllAccepted(entries, artifacts, 0) && Filled(entries, artifacts[..0]) == entries
  {
  }

  lemma NextFilled(entries: Entries, artifacts: seq<Artifact>, k: nat)
    requires k < |artifacts|
    ensures Filled(entries, artifacts[..k + 1]) == Added(Filled(entries, artifacts[..k]), artifacts[k])
    ensures AllAccepted(entries, artifacts, k + 1) <==>
            AllAccepted(entries, artifacts, k) && Accepts(Filled(entries, artifacts[..k]), artifacts[k])
    ensures !AllAccepted(entries, artifacts, k + 1) ==> !AllAccepted(entries, artifacts, |artifacts|)
  {
    hide Accepts, Added;
    assert artifacts[..k + 1][..k] == artifacts[..k];
  }

  lemma StayInPlace(before: Entries, after: Entries, artifacts: seq<Artifact>, k: int)
    requires AllInPlace(before, artifacts, k) && Keeps(before, after)
    ensures AllInPlace(after, artifacts, k)
  {
  }

  lemma {:induction false} FilledHas(entries: Entries, artifacts: seq<Artifact>, path: string)
    ensures path in Filled(entries, artifacts) <==> path in entries || path in Paths(artifacts)
    ensures path in entries ==> Filled(entries, artifacts)[path] == entries[path]
  {
    if artifacts != [] {
      var front, last := artifacts[..|artifacts| - 1], artifacts[|artifacts| - 1];
      FilledHas(entries, front, path);
      assert Paths(artifacts) == Paths(front) + [last.path];
    }
  }

  lemma AcceptsAsBefore(entries: Entries, artifacts: seq<Artifact>, k: nat)
    requires Distinct(Paths(artifacts)) && k < |artifacts|
    ensures Accepts(Filled(entries, artifacts[..k]), artifacts[k]) <==> Accepts(entries, artifacts[k])
  {
    hide Paths, Filled;
    FilledHas(entries, artifacts[..k], artifacts[k].path);
    forall i | 0 <= i < k ensures Paths(artifacts[..k])[i] != artifacts[k].path {
      assert Paths(artifacts)[i] != Paths(artifacts)[k];
    }
  }

  /** With different names, a calm run writes all exactly if each name is free or has the planned bytes. */
  lemma AcceptedIff(entries: Entries, artifacts: seq<Artifact>)
    requires Distinct(Paths(artifacts))
    ensures AllAccepted(entries, artifacts, |artifacts|) <==> forall k :: 0 <= k < |artifacts| ==> Accepts(entries, artifacts[k])
  {
    hide Accepts, Filled, Distinct, Paths;
    forall k | 0 <= k < |artifacts|
      ensures Accepts(Filled(entries, artifacts[..k]), artifacts[k]) <==> Accepts(entries, artifacts[k])
    {
      AcceptsAsBefore(entries, artifacts, k);
    }
  }

  lemma {:induction false} FilledInPlace(entries: Entries, artifacts: seq<Artifact>, n: nat, k: nat)
    requires k < n <= |artifacts| && AllAccepted(entries, artifacts, n)
    ensures InPlace(Filled(entries, artifacts[..n]), artifacts[k])
    decreases n
  {
    assert artifacts[..n][..n - 1] == artifacts[..n - 1];
    if k < n - 1 {
      FilledInPlace(entries, artifacts, n - 1, k);
    }
  }

  lemma {:induction false} FilledStays(entries: Entries, artifacts: seq<Artifact>)
    requires forall artifact <- artifacts :: artifact.path in entries
    ensures Filled(entries, artifacts) == entries
  {
    if artifacts != [] {
      FilledStays(entries, artifacts[..|artifacts| - 1]);
    }
  }

  /** After a run that wrote everything, another one writes everything and changes nothing. */
  lemma SecondRunChangesNothing(entries: Entries, artifacts: seq<Artifact>)
    requires AllAccepted(entries, artifacts, |artifacts|)
    requires forall artifact <- artifacts :: |artifact.bytes| <= READ_EXISTING_MAX_BYTES
    ensures var filled := Filled(entries, artifacts);
      AllAccepted(filled, artifacts, |artifacts|) && Filled(filled, artifacts) == filled
  {
    var filled := Filled(entries, artifacts);
    assert artifacts[..|artifacts|] == artifacts;
    forall k | 0 <= k < |artifacts| ensures InPlace(filled, artifacts[k]) {
      FilledInPlace(entries, artifacts, |artifacts|, k);
    }
    forall artifact | artifact in artifacts ensures artifact.path in filled {
      var k :| 0 <= k < |artifacts| && artifacts[k] == artifact;
    }
    FilledStays(filled, artifacts);
    forall k | 0 <= k < |artifacts| ensures Accepts(Filled(filled, artifacts[..k]), artifacts[k]) {
      FilledStays(filled, artifacts[..k]);
    }
  }
}
