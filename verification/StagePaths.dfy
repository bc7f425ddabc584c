/** Names of private stage directories (stagePath in packages/core/src/init.ts:337-342 and activation.ts:559-569). */
module StagePaths {
  import opened MutationModel

  /** The path with a marker put in front of its last segment. */
  function BesideName(path: Path, mark: string): Path {
    var at := LastSeparator(path);
    path[..at + 1] + mark + path[at + 1..]
  }

  /** The first 16 characters of the plan's hash; hexadecimal, so never a slash. */
  predicate ValidSeed(seed: string) {
    |seed| >= 16 && '/' !in seed
  }

  function StagePath(tag: string, path: Path, seed: string): Path
    requires ValidSeed(seed)
  {
    BesideName(path, tag + seed[..16] + "-")
  }

  lemma SeparatorIsUnique(path: Path, at: int)
    requires -1 <= at < |path| && (at >= 0 ==> path[at] == '/')
    requires forall i :: at < i < |path| ==> path[i] != '/'
    ensures LastSeparator(path) == at
  {
    var found := LastSeparatorBefore(path, |path|);
    assert found >= 0 ==> path[found] == '/';
  }

  lemma ParentOfChild(directory: Path, name: string)
    requires '/' !in name
    ensures ParentPath(directory + "/" + name) == directory
  {
    var path := directory + "/" + name;
    forall i | |directory| < i < |path| ensures path[i] != '/' {
      assert path[i] == name[i - |directory| - 1];
    }
    SeparatorIsUnique(path, |directory|);
    assert path[..|directory|] == directory;
  }

  /** A stage lies beside its destination. */
  lemma BesideNameParent(path: Path, mark: string)
    requires '/' !in mark
    ensures ParentPath(BesideName(path, mark)) == ParentPath(path)
  {
    var at, long := LastSeparator(path), BesideName(path, mark);
    forall i | at < i < |long| ensures long[i] != '/' {
      if i < at + 1 + |mark| {
        assert long[i] == mark[i - at - 1];
      } else {
        assert long[i] == path[i - |mark|];
      }
    }
    SeparatorIsUnique(long, at);
    if at >= 0 {
      assert long[..at] == path[..at];
    }
  }

  /** The original path can be read off its stage. */
  lemma BesideNameSplits(path: Path, mark: string)
    requires '/' !in mark
    ensures var long := BesideName(path, mark); var cut := LastSeparator(long) + 1;
      |long| == |path| + |mark| && cut + |mark| <= |long| && path == long[..cut] + long[cut + |mark|..]
  {
    var at := LastSeparator(path);
    var long := BesideName(path, mark);
    forall i | at < i < |long| ensures long[i] != '/' {
      if i < at + 1 + |mark| {
        assert long[i] == mark[i - at - 1];
      } else {
        assert long[i] == path[i - |mark|];
      }
    }
    SeparatorIsUnique(long, at);
    assert long[at + 1 + |mark|..] == path[at + 1..];
  }

  /** Two paths with the same stage are the same path. */
  lemma BesideNameInjective(p: Path, q: Path, mark: string)
    requires '/' !in mark && BesideName(p, mark) == BesideName(q, mark)
    ensures p == q
  {
    BesideNameSplits(p, mark);
    BesideNameSplits(q, mark);
  }

  lemma StageMark(tag: string, seed: string)
    requires ValidSeed(seed) && '/' !in tag
    ensures '/' !in tag + seed[..16] + "-"
    ensures |tag + seed[..16] + "-"| == |tag| + 17
  {
  }
}
