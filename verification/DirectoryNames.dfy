/**
 What a directory lists: the names of what is in it, sorted and without repetition
 (packages/cli/src/activation-observation.ts; validMembers in packages/core/src/activation.ts).
 */
module DirectoryNames {
  import opened MutationModel
  import opened MutationStore
  import opened StagePaths
  import opened ActivationPlan

  /** The last segment of a path. */
  function NameOf(path: Path): string {
    path[LastSeparator(path) + 1..]
  }

  ghost predicate Ascending(names: seq<string>) {
    forall i, j :: 0 <= i < j < |names| ==> NameBefore(names[i], names[j])
  }

  predicate Named(paths: set<Path>, name: string) {
    exists path <- paths :: NameOf(path) == name
  }

  /** A listing tells exactly the names that are there. */
  ghost predicate Faithful(looks: Looks) {
    && (forall names :: looks.digest(names) == MembersDigest(names))
    && (forall paths :: Ascending(looks.names(paths)))
    && (forall paths, name :: name in looks.names(paths) <==> Named(paths, name))
  }

  lemma {:induction false} NotBeforeItself(a: string)
    ensures !NameBefore(a, a)
  {
    if a != "" {
      NotBeforeItself(a[1..]);
    }
  }

  lemma {:induction false} OneWay(a: string, b: string)
    ensures !(NameBefore(a, b) && NameBefore(b, a))
  {
    if a != "" && b != "" && a[0] == b[0] {
      OneWay(a[1..], b[1..]);
    }
  }

  lemma EmptyLikewise(a: seq<string>, b: seq<string>)
    requires forall name :: name in a <==> name in b
    ensures a == [] <==> b == []
  {
    NonEmptyLikewise(a, b);
    NonEmptyLikewise(b, a);
  }

  lemma NonEmptyLikewise(a: seq<string>, b: seq<string>)
    requires forall name :: name in a ==> name in b
    ensures a != [] ==> b != []
  {
    if a != [] {
      assert a[0] in a;
    }
  }

  /** Two ascending lists of the same names are the same list. */
  lemma {:induction false} AscendingUnique(a: seq<string>, b: seq<string>)
    requires Ascending(a) && Ascending(b) && forall name :: name in a <==> name in b
    ensures a == b
  {
    EmptyLikewise(a, b);
    if a != [] {
      SameFirst(a, b);
      forall name ensures name in a[1..] <==> name in b[1..] {
        OnlyFirst(a, name);
        OnlyFirst(b, name);
      }
      AscendingUnique(a[1..], b[1..]);
      assert a == [a[0]] + a[1..] && b == [b[0]] + b[1..];
    }
  }

  lemma SameFirst(a: seq<string>, b: seq<string>)
    requires Ascending(a) && Ascending(b) && a != [] && b != [] && forall name :: name in a <==> name in b
    ensures a[0] == b[0]
  {
    assert a[0] in b && b[0] in a;
    var i :| 0 <= i < |b| && b[i] == a[0];
    var j :| 0 <= j < |a| && a[j] == b[0];
    OneWay(a[0], a[j]);
  }

  lemma OnlyFirst(a: seq<string>, name: string)
    requires Ascending(a) && a != []
    ensures name in a[1..] <==> name in a && name != a[0]
  {
    if name in a[1..] {
      var i :| 0 <= i < |a[1..]| && a[1..][i] == name;
      assert NameBefore(a[0], a[i + 1]);
      NotBeforeItself(a[0]);
    }
  }

  lemma EmptyListing(looks: Looks)
    requires Faithful(looks)
    ensures looks.names({}) == []
  {
    forall name ensures name !in looks.names({}) {
      assert !Named({}, name);
    }
    EmptyLikewise(looks.names({}), []);
  }

  lemma NameOfChild(directory: Path, name: string)
    requires '/' !in name
    ensures NameOf(directory + "/" + name) == name
  {
    var path := directory + "/" + name;
    forall i | |directory| < i < |path| ensures path[i] != '/' {
      assert path[i] == name[i - |directory| - 1];
    }
    SeparatorIsUnique(path, |directory|);
    assert path[|directory| + 1..] == name;
  }

  /** A path is its directory, a slash and its name. */
  lemma PathOfParts(path: Path)
    requires ParentPath(path) != ""
    ensures path == ParentPath(path) + "/" + NameOf(path)
  {
    var at := LastSeparator(path);
    assert path == path[..at] + [path[at]] + path[at + 1..];
  }

  /** Three ascending names are the listing of the three paths that bear them. */
  lemma ListingIs(looks: Looks, paths: set<Path>, names: seq<string>)
    requires Faithful(looks) && Ascending(names)
    requires forall name :: name in names <==> Named(paths, name)
    ensures looks.names(paths) == names
  {
    AscendingUnique(looks.names(paths), names);
  }

  lemma ThereIsListed(looks: Looks, paths: set<Path>, directory: Path, path: Path)
    requires Faithful(looks) && directory != "" && path in paths && ParentPath(path) == directory
    ensures NameOf(path) in looks.names(paths) && path == directory + "/" + NameOf(path)
  {
    PathOfParts(path);
    assert Named(paths, NameOf(path));
  }
}
