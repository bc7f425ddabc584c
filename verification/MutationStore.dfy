/**
 The target tree as a path map, with the operations the executors may call
 (InitMutationOperations in packages/cli/src/init-mutation.ts). Every operation
 may fail; `AfterOperation` models the hook that may throw once an effect has
 happened; an interruption may arrive at any time and is never withdrawn.
 A calm run is one without failures: what the tree allows succeeds, and no hook throws.
 */
module MutationStore {
  import opened Foundations
  import opened MutationModel

  /**
   What an observer stopped at this instant would need to know beside the tree:
   the identity of the commit marker's staged new copy; whether the run is fully
   committed or fully restored; whether it has tried to remove the marker; and
   whether the marker is known to be stuck: its removal has failed or, in Activation,
   its restoration has failed and its removal is still to come.
   */
  datatype Flags = Flags(copy: Option<Identity>, settled: bool, voided: bool, stuck: bool)

  /** The run has neither tried to remove the marker nor given up restoring it. */
  predicate MarkerUntouched(flags: Flags) {
    !flags.voided && !flags.stuck
  }

  /** What was known at an earlier instant is known at a later one. */
  predicate LedTo(earlier: Flags, later: Flags) {
    && (earlier.copy.Some? ==> earlier.copy == later.copy) && (earlier.settled ==> later.settled)
    && (earlier.voided ==> later.voided) && (earlier.stuck ==> later.stuck)
  }

  datatype Snapshot = Snapshot(nodes: Nodes, flags: Flags)

  datatype Inspection = Present(node: Node) | Absent | Unreadable

  /** An observation of kind missing, file or directory describes the tree as it is. */
  ghost predicate Truthful(nodes: Nodes, entry: PathObservation) {
    var place := Managed(entry.path);
    match entry.kind
    case Missing => place !in nodes
    case File =>
      && place in nodes && nodes[place].RegularFile?
      && entry.identity == Some(nodes[place].identity) && entry.digest == Some(Sha256(nodes[place].bytes))
    case Directory => place in nodes && nodes[place].Folder? && entry.identity == Some(nodes[place].identity)
    case _ => true
  }

  /** A file can take the place of a file, or an empty place in a directory that is there. */
  predicate Renamable(nodes: Nodes, source: Place, destination: Place) {
    && source in nodes && nodes[source].RegularFile? && ParentPresent(nodes, destination)
    && (destination in nodes ==> !nodes[destination].Folder?)
  }

  /** What a directory answers beside its identity: access, and the listing of its members. */
  datatype Looks = Looks(readable: Path -> bool, searchable: Path -> bool,
                         names: set<Path> -> seq<Path>, digest: seq<Path> -> Digest)

  /** The managed paths in a directory; private stages are not listed. */
  function Members(nodes: Nodes, path: Path): set<Path> {
    set place <- nodes | place.Managed? && place.path != path && ParentPath(place.path) == path :: place.path
  }

  /** What an undisturbed observer sees. */
  function Seen(looks: Looks, nodes: Nodes, path: Path, detailed: bool, listed: bool): PathObservation {
    if Managed(path) !in nodes then Plain(path, Missing)
    else
      match nodes[Managed(path)]
      case Folder(identity) =>
        var names := looks.names(Members(nodes, path));
        PathObservation(path, Directory, Some(looks.readable(path)), Some(looks.searchable(path)),
                        if listed then Some(looks.digest(names)) else None, Some(identity), None, None,
                        if listed then Some(names) else None)
      case RegularFile(identity, bytes, mode) =>
        PathObservation(path, File, Some(true), None, Some(Sha256(bytes)), Some(identity),
                        if detailed then Some(mode) else None, Some(bytes), None)
      case Special(_) => Plain(path, Symlink)
  }

  /** Every directory stays itself, and no directory appears inside a stage. */
  ghost predicate FoldersKept(a: Nodes, b: Nodes) {
    && (forall place <- a :: a[place].Folder? ==> place in b && b[place] == a[place])
    && (forall place <- b :: place.Staged? && b[place].Folder? ==> place in a && a[place].Folder?)
  }

  /** What asking for a directory can lead to: nothing, the directory, or the directory without its identity. */
  ghost predicate MakesDirectory(before: Nodes, newest: Identity, orphan: Option<Place>, place: Place,
                                 identity: Option<Identity>, after: Nodes, orphan': Option<Place>)
  {
    || (identity == None && after == before && orphan' == orphan)
    || (place !in before && ParentPresent(before, place) && after == before[place := Folder(newest)] &&
        ((identity == Some(newest) && orphan' == orphan) || (identity == None && orphan' == Some(place))))
  }

  /** No copy has been laid out for restoring. */
  ghost predicate NoNewRestore(a: Nodes, b: Nodes) {
    forall place <- b :: place.Staged? && place.slot == Restore ==> place in a
  }

  lemma KeptTrans(a: Nodes, b: Nodes, c: Nodes)
    requires FoldersKept(a, b) && FoldersKept(b, c)
    ensures FoldersKept(a, c)
  {
  }

  lemma ForwardTrans(a: Nodes, b: Nodes, c: Nodes)
    requires FoldersKept(a, b) && NoNewRestore(a, b) && FoldersKept(b, c) && NoNewRestore(b, c)
    ensures FoldersKept(a, c) && NoNewRestore(a, c)
  {
  }

  lemma ParentKept(a: Nodes, b: Nodes, place: Place)
    requires FoldersKept(a, b) && ParentPresent(a, place)
    ensures ParentPresent(b, place)
  {
  }

  class Store {
    var nodes: Nodes
    var nextIdentity: Identity
    var interrupted: bool
    const umask: Mode
    const looks: Looks
    const calm: bool

    /** Every state of the tree so far, oldest first. */
    ghost var trace: seq<Snapshot>
    ghost var flags: Flags
    /** A directory whose creation succeeded although `makeDirectory` threw. */
    ghost var orphan: Option<Place>

    ghost predicate Valid()
      reads this`nodes, this`nextIdentity
    {
      && (forall place <- nodes :: nodes[place].identity < nextIdentity)
      && (forall place <- nodes :: place.Staged? ==> Stage(place.stage) in nodes)
      && Planted(nodes)
    }

    constructor (nodes: Nodes, nextIdentity: Identity, umask: Mode, looks: Looks, calm: bool)
      requires forall place <- nodes :: nodes[place].identity < nextIdentity
      requires (forall place <- nodes :: place.Staged? ==> Stage(place.stage) in nodes) && Planted(nodes)
      ensures Valid() && this.nodes == nodes && this.nextIdentity == nextIdentity
      ensures trace == [] && orphan == None && flags == Flags(None, false, false, false)
      ensures !interrupted && this.umask == umask && this.looks == looks && this.calm == calm
    {
      this.nodes, this.nextIdentity, this.umask, this.looks, this.calm := nodes, nextIdentity, umask, looks, calm;
      interrupted, trace, orphan := false, [], None;
      flags := Flags(None, false, false, false);
    }

    /** Whether the system refuses an operation that the tree would allow. */
    method Refused() returns (refused: bool)
      ensures calm ==> !refused
    {
      refused := *;
      refused := refused && !calm;
    }

    /** `mkdir` followed by `lstat`; when only the `lstat` throws, the directory stays behind. */
    method MakeDirectory(place: Place) returns (identity: Option<Identity>)
      requires Valid() && !place.Staged?
      modifies this`nodes, this`nextIdentity, this`trace, this`orphan
      ensures Valid() && old(nextIdentity) <= nextIdentity
      ensures trace == old(trace) + [Snapshot(nodes, flags)]
      ensures identity.Some? ==>
        && place !in old(nodes) && orphan == old(orphan)
        && identity.value == old(nextIdentity) < nextIdentity
        && nodes == old(nodes)[place := Folder(identity.value)]
      ensures identity.None? && nodes != old(nodes) ==>
        && place !in old(nodes) && orphan == Some(place)
        && nodes == old(nodes)[place := Folder(old(nextIdentity))]
      ensures identity.None? && nodes == old(nodes) ==> orphan == old(orphan)
      ensures MakesDirectory(old(nodes), old(nextIdentity), old(orphan), place, identity, nodes, orphan)
      ensures FoldersKept(old(nodes), nodes) && NoNewRestore(old(nodes), nodes)
      ensures calm && place !in old(nodes) && ParentPresent(old(nodes), place) ==> identity.Some?
    {
      var refused := Refused();
      var unconfirmed := Refused();
      var possible := place !in nodes && ParentPresent(nodes, place);
      identity := None;
      if possible && !refused {
        nodes := nodes[place := Folder(nextIdentity)];
        if unconfirmed {
          orphan := Some(place);
        } else {
          identity := Some(nextIdentity);
        }
        nextIdentity := nextIdentity + 1;
      }
      trace := trace + [Snapshot(nodes, flags)];
    }

    method ReadFile(place: Place) returns (file: Option<Node>)
      ensures file.Some? ==> file.value.RegularFile? && place in nodes && nodes[place] == file.value
      ensures calm && place in nodes && nodes[place].RegularFile? ==> file.Some?
    {
      var refused := Refused();
      file := if !refused && place in nodes && nodes[place].RegularFile? then Some(nodes[place]) else None;
    }

    /** `O_EXCL` creation, write and optional `chmod`; a failure may leave a partial file. */
    method WriteFileExclusive(place: Place, bytes: Bytes, mode: Mode, preserveMode: bool)
      returns (ok: bool)
      requires Valid() && place.Staged?
      modifies this`nodes, this`nextIdentity, this`trace
      ensures Valid() && old(nextIdentity) <= nextIdentity
      ensures trace == old(trace) + [Snapshot(nodes, flags)]
      ensures ok ==>
        && place !in old(nodes) && nextIdentity == old(nextIdentity) + 1
        && nodes == old(nodes)[place := RegularFile(old(nextIdentity), bytes, CreatedMode(mode, preserveMode))]
      ensures !ok ==>
        || nodes == old(nodes)
        || (place !in old(nodes) && place in nodes && nodes[place].RegularFile?
            && nodes == old(nodes)[place := nodes[place]])
      ensures FoldersKept(old(nodes), nodes) && (place.slot != Restore ==> NoNewRestore(old(nodes), nodes))
      ensures calm && place !in old(nodes) && ParentPresent(old(nodes), place) ==> ok
    {
      var refused := Refused();
      var torn := Refused();
      if refused || place in nodes || !ParentPresent(nodes, place) {
        ok := false;
      } else if torn {
        var partial: Bytes, partialMode: Mode := *, *;
        nodes := nodes[place := RegularFile(nextIdentity, partial, partialMode)];
        nextIdentity := nextIdentity + 1;
        ok := false;
      } else {
        nodes := nodes[place := RegularFile(nextIdentity, bytes, CreatedMode(mode, preserveMode))];
        nextIdentity := nextIdentity + 1;
        ok := true;
      }
      trace := trace + [Snapshot(nodes, flags)];
    }

    function CreatedMode(mode: Mode, preserveMode: bool): Mode {
      if preserveMode then mode else mode - umask
    }

    /** Atomic replacement: the file and its identity move from one place to the other. */
    method Rename(source: Place, destination: Place) returns (ok: bool)
      requires Valid() && source.Staged? && destination.Managed?
      modifies this`nodes, this`trace
      ensures Valid()
      ensures trace == old(trace) + [Snapshot(nodes, flags)]
      ensures ok ==>
        && source in old(nodes) && old(nodes)[source].RegularFile?
        && nodes == old(nodes)[destination := old(nodes)[source]] - {source}
        && ParentPresent(nodes, destination)
      ensures !ok ==> nodes == old(nodes)
      ensures FoldersKept(old(nodes), nodes) && NoNewRestore(old(nodes), nodes)
      ensures calm && Renamable(old(nodes), source, destination) ==> ok
    {
      var refused := Refused();
      if refused || !Renamable(nodes, source, destination) {
        ok := false;
      } else {
        nodes := nodes[destination := nodes[source]] - {source};
        ok := true;
      }
      trace := trace + [Snapshot(nodes, flags)];
    }

    /** `rm` with `force`: an absent file is not an error, a directory is. */
    method RemoveFile(place: Place) returns (ok: bool)
      requires Valid() && !place.Stage?
      modifies this`nodes, this`trace
      ensures Valid()
      ensures trace == old(trace) + [Snapshot(nodes, flags)]
      ensures ok ==> nodes == old(nodes) - {place} && (place in old(nodes) ==> !old(nodes)[place].Folder?)
      ensures !ok ==> nodes == old(nodes)
      ensures FoldersKept(old(nodes), nodes) && NoNewRestore(old(nodes), nodes)
      ensures calm && (place in old(nodes) ==> !old(nodes)[place].Folder?) ==> ok
    {
      var refused := Refused();
      if refused || (place in nodes && nodes[place].Folder?) {
        ok := false;
      } else {
        nodes := nodes - {place};
        ok := true;
      }
      trace := trace + [Snapshot(nodes, flags)];
    }

    /** `rmdir`: only an empty directory can be removed. */
    method RemoveDirectory(place: Place) returns (ok: bool)
      requires Valid() && !place.Staged?
      modifies this`nodes, this`trace
      ensures Valid()
      ensures trace == old(trace) + [Snapshot(nodes, flags)]
      ensures ok ==>
        && place in old(nodes) && old(nodes)[place].Folder? && EmptyFolder(old(nodes), place)
        && nodes == old(nodes) - {place}
      ensures !ok ==> nodes == old(nodes)
      ensures calm && place in old(nodes) && old(nodes)[place].Folder? && EmptyFolder(old(nodes), place) ==> ok
    {
      var refused := Refused();
      if refused || place !in nodes || !nodes[place].Folder? || !EmptyFolder(nodes, place) {
        ok := false;
      } else {
        nodes := nodes - {place};
        ok := true;
      }
      trace := trace + [Snapshot(nodes, flags)];
    }

    method Inspect(place: Place) returns (seen: Inspection)
      ensures seen.Present? ==> place in nodes && nodes[place] == seen.node
      ensures seen.Absent? ==> place !in nodes
      ensures calm ==> !seen.Unreadable?
    {
      var refused := Refused();
      seen := if refused then Unreadable
              else if place in nodes then Present(nodes[place])
              else Absent;
    }

    /**
     Observes a managed path: the report is truthful or says that nothing could be confirmed.
     `detailed` adds the mode of a file; `listed` adds the names in a directory and their digest.
     */
    method Observe(path: Path, detailed: bool, listed: bool) returns (entry: PathObservation)
      ensures entry.path == path && Truthful(nodes, entry)
      ensures calm ==> entry == Seen(looks, nodes, path, detailed, listed)
    {
      var place := Managed(path);
      var refused, readable, searchable: bool := *, *, *;
      var names: seq<Path>, digest: Digest := *, *;
      if calm {
        entry := Seen(looks, nodes, path, detailed, listed);
      } else if refused {
        entry := Plain(path, Unconfirmable);
      } else if place !in nodes {
        entry := Plain(path, Missing);
      } else {
        match nodes[place]
        case Folder(identity) =>
          entry := PathObservation(path, Directory, Some(readable), Some(searchable),
                                   if listed then Some(digest) else None, Some(identity), None, None,
                                   if listed then Some(names) else None);
        case RegularFile(identity, bytes, mode) =>
          entry := PathObservation(path, File, Some(true), None, Some(Sha256(bytes)), Some(identity),
                                   if detailed then Some(mode) else None, Some(bytes), None);
        case Special(_) =>
          entry := Plain(path, Symlink);
      }
    }

    method ObserveStage(path: Path) returns (entry: StageObservation)
      ensures entry.path == path && (entry.kind == Missing ==> Stage(path) !in nodes)
      ensures calm ==> (entry.kind == Missing <==> Stage(path) !in nodes)
    {
      var refused := Refused();
      entry := StageObservation(path,
        if refused then Unconfirmable
        else if Stage(path) !in nodes then Missing
        else if nodes[Stage(path)].Folder? then Directory
        else if nodes[Stage(path)].RegularFile? then File
        else Symlink);
    }

    method AfterOperation() returns (ok: bool)
      ensures calm ==> ok
    {
      ok := Refused();
      ok := !ok;
    }

    method ShouldAbort() returns (abort: bool)
      modifies this`interrupted
      ensures abort == interrupted
      ensures old(interrupted) ==> abort
    {
      if !interrupted {
        interrupted := *;
      }
      abort := interrupted;
    }
  }
}
