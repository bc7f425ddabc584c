/** Option values and facts about duplicate-free sequences, shared by every module. */
module Foundations {

  datatype Option<+T> = None | Some(value: T)

  /** The elements of a sequence, as the source's `new Set(list)`. */
  function ToSet<T>(s: seq<T>): set<T> {
    set x | x in s
  }

  ghost predicate Distinct<T>(s: seq<T>) {
    forall i, j :: 0 <= i < j < |s| ==> s[i] != s[j]
  }

  function Reverse<T>(s: seq<T>): (r: seq<T>)
    ensures |r| == |s|
    ensures forall i :: 0 <= i < |s| ==> r[i] == s[|s| - 1 - i]
  {
    if s == [] then [] else Reverse(s[1..]) + [s[0]]
  }

  /** No entry twice: as many different entries as entries. */
  predicate Unique<T(==)>(s: seq<T>) {
    |ToSet(s)| == |s|
  }

  lemma {:induction false} UniqueIffDistinct<T>(s: seq<T>)
    ensures Unique(s) <==> Distinct(s)
    ensures |ToSet(s)| <= |s|
  {
    if s != [] {
      var front, last := s[..|s| - 1], s[|s| - 1];
      UniqueIffDistinct(front);
      assert s == front + [last];
      assert ToSet(s) == ToSet(front) + {last};
      if last in front {
        assert ToSet(s) == ToSet(front);
        var i :| 0 <= i < |front| && front[i] == last;
        assert s[i] == s[|s| - 1];
      } else if Distinct(front) {
        forall i, j | 0 <= i < j < |s| ensures s[i] != s[j] {
          if j == |s| - 1 { assert s[i] in front; }
        }
      } else {
        var i, j :| 0 <= i < j < |front| && front[i] == front[j];
        assert s[i] == s[j];
      }
    }
  }

  lemma SubsetOfSameSize<T>(a: set<T>, b: set<T>)
    requires a <= b && |a| == |b|
    ensures a == b
  {
    assert b == a + (b - a);
    assert |b| == |a| + |b - a|;
  }

  /** Texts of different lengths are different. */
  lemma DistinctByLength(texts: seq<string>, lengths: seq<int>)
    requires |texts| == |lengths| && Distinct(lengths)
    requires forall i :: 0 <= i < |texts| ==> |texts[i]| == lengths[i]
    ensures Distinct(texts)
  {
  }

  lemma DistinctAppend<T>(s: seq<T>, x: T)
    requires Distinct(s) && x !in s
    ensures Distinct(s + [x])
  {
    forall i, j | 0 <= i < j < |s| + 1 ensures (s + [x])[i] != (s + [x])[j] {
      if j == |s| { assert s[i] in s; }
    }
  }

  lemma DistinctCons<T>(x: T, s: seq<T>)
    requires Distinct(s) && x !in s
    ensures Distinct([x] + s)
  {
    forall i, j | 0 <= i < j < |s| + 1 ensures ([x] + s)[i] != ([x] + s)[j] {
      assert s[j - 1] in s;
    }
  }

  lemma DistinctReverse<T>(s: seq<T>)
    requires Distinct(s)
    ensures Distinct(Reverse(s))
    ensures ToSet(Reverse(s)) == ToSet(s)
  {
    ReverseMembers(s);
  }

  lemma ReverseMembers<T>(s: seq<T>)
    ensures ToSet(Reverse(s)) == ToSet(s)
  {
    forall x ensures x in Reverse(s) <==> x in s {
      if x in s {
        var i :| 0 <= i < |s| && s[i] == x;
        assert Reverse(s)[|s| - 1 - i] == x;
      }
    }
  }
}
