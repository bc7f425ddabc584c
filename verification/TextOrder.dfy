/**
 The orders artifacts are sorted by, and sorting: JavaScript's `<` on strings compares UTF-16
 code units, compareUtf8 (packages/core/src/review/path.ts:101-112) compares encoded octets.
 */
module TextOrder {
  import opened Foundations
  import JsonText

  type Unit = JsonText.Unit

  type Text = JsonText.Text

  // ---------------------------------------------------------------------
  // Lexicographic order
  // ---------------------------------------------------------------------

  predicate Before(a: seq<nat>, b: seq<nat>) {
    b != [] && (a == [] || a[0] < b[0] || (a[0] == b[0] && Before(a[1..], b[1..])))
  }

  lemma {:induction false} NotBeforeItself(a: seq<nat>)
    ensures !Before(a, a)
  {
    if a != [] {
      NotBeforeItself(a[1..]);
    }
  }

  lemma {:induction false} BeforeTransitive(a: seq<nat>, b: seq<nat>, c: seq<nat>)
    requires Before(a, b) && Before(b, c)
    ensures Before(a, c)
  {
    if a != [] && a[0] == b[0] == c[0] {
      BeforeTransitive(a[1..], b[1..], c[1..]);
    }
  }

  lemma {:induction false} BeforeTotal(a: seq<nat>, b: seq<nat>)
    ensures a == b || Before(a, b) || Before(b, a)
  {
    if a != [] && b != [] && a[0] == b[0] {
      BeforeTotal(a[1..], b[1..]);
      assert a == [a[0]] + a[1..] && b == [b[0]] + b[1..];
    }
  }

  lemma NotBoth(a: seq<nat>, b: seq<nat>)
    requires Before(a, b)
    ensures !Before(b, a) && a != b
  {
    NotBeforeItself(a);
    if Before(b, a) {
      BeforeTransitive(a, b, a);
    }
  }

  // ---------------------------------------------------------------------
  // UTF-8
  // ---------------------------------------------------------------------

  predicate Leads(u: nat) {
    0xD800 <= u <= 0xDBFF
  }

  predicate Trails(u: nat) {
    0xDC00 <= u <= 0xDFFF
  }

  function EncodePoint(p: nat): seq<nat> {
    if p < 0x80 then [p]
    else if p < 0x800 then [0xC0 + p / 64, 0x80 + p % 64]
    else if p < 0x10000 then [0xE0 + p / 4096, 0x80 + p / 64 % 64, 0x80 + p % 64]
    else [0xF0 + p / 262144, 0x80 + p / 4096 % 64, 0x80 + p / 64 % 64, 0x80 + p % 64]
  }

  /** The character a surrogate pair stands for. */
  function PairPoint(lead: nat, trail: nat): nat
    requires Leads(lead) && Trails(trail)
  {
    0x10000 + (lead - 0xD800) * 1024 + (trail - 0xDC00)
  }

  /** The octets of a text in UTF-8; a surrogate without its partner becomes U+FFFD. */
  function Encode(text: Text): seq<nat> {
    if text == [] then []
    else if Leads(text[0]) && |text| > 1 && Trails(text[1])
    then EncodePoint(PairPoint(text[0], text[1])) + Encode(text[2..])
    else if Leads(text[0]) || Trails(text[0]) then EncodePoint(0xFFFD) + Encode(text[1..])
    else EncodePoint(text[0]) + Encode(text[1..])
  }

  /** Equal octets in front do not matter. */
  lemma SameOctet(a: seq<nat>, b: seq<nat>, i: nat)
    requires i < |a| && i < |b| && a[i] == b[i]
    ensures Before(a[i..], b[i..]) == Before(a[i + 1..], b[i + 1..])
    ensures a[i..] == b[i..] <==> a[i + 1..] == b[i + 1..]
  {
    assert a[i..][1..] == a[i + 1..] && b[i..][1..] == b[i + 1..];
    assert a[i..] == [a[i]] + a[i + 1..] && b[i..] == [b[i]] + b[i + 1..];
  }

  lemma OtherOctet(a: seq<nat>, b: seq<nat>, i: nat)
    requires i < |a| && i < |b| && a[i] != b[i]
    ensures Before(a[i..], b[i..]) <==> a[i] < b[i]
    ensures a[i..] != b[i..]
  {
    assert a[i..][0] == a[i] && b[i..][0] == b[i];
  }

  method CompareUtf8(a: Text, b: Text) returns (diff: int)
    ensures diff < 0 <==> Before(Encode(a), Encode(b))
    ensures diff == 0 <==> Encode(a) == Encode(b)
    ensures diff > 0 <==> Before(Encode(b), Encode(a))
  {
    hide Encode, Before;
    diff := CompareOctets(Encode(a), Encode(b));
  }

  method CompareOctets(a: seq<nat>, b: seq<nat>) returns (diff: int)
    ensures diff < 0 <==> Before(a, b)
    ensures diff == 0 <==> a == b
    ensures diff > 0 <==> Before(b, a)
  {
    var length := if |a| < |b| then |a| else |b|;
    assert a[0..] == a && b[0..] == b;
    for i := 0 to length
      invariant Before(a, b) == Before(a[i..], b[i..]) && Before(b, a) == Before(b[i..], a[i..])
      invariant a == b <==> a[i..] == b[i..]
    {
      diff := a[i] as int - b[i];
      if diff != 0 {
        OtherOctet(a, b, i);
        OtherOctet(b, a, i);
        return;
      }
      SameOctet(a, b, i);
      SameOctet(b, a, i);
    }
    diff := |a| as int - |b|;
  }

  // ---------------------------------------------------------------------
  // Sorting
  // ---------------------------------------------------------------------

  predicate StrictlySorted<T>(s: seq<T>, key: T -> seq<nat>) {
    forall i, j :: 0 <= i < j < |s| ==> Before(key(s[i]), key(s[j]))
  }

  /** Each entry before the next one: what the readers check. */
  predicate StepwiseSorted<T>(s: seq<T>, key: T -> seq<nat>) {
    forall i :: 0 < i < |s| ==> Before(key(s[i - 1]), key(s[i]))
  }

  ghost predicate DistinctKeys<T>(s: seq<T>, key: T -> seq<nat>) {
    forall i, j :: 0 <= i < j < |s| ==> key(s[i]) != key(s[j])
  }

  function Insert<T>(x: T, s: seq<T>, key: T -> seq<nat>): seq<T> {
    if s == [] || Before(key(x), key(s[0])) then [x] + s else [s[0]] + Insert(x, s[1..], key)
  }

  function Sort<T>(s: seq<T>, key: T -> seq<nat>): seq<T> {
    if s == [] then [] else Insert(s[|s| - 1], Sort(s[..|s| - 1], key), key)
  }

  lemma {:induction false} InsertKeeps<T>(x: T, s: seq<T>, key: T -> seq<nat>)
    ensures multiset(Insert(x, s, key)) == multiset(s) + multiset{x}
    ensures |Insert(x, s, key)| == |s| + 1
  {
    if s == [] || Before(key(x), key(s[0])) {
    } else {
      InsertKeeps(x, s[1..], key);
      assert s == [s[0]] + s[1..];
    }
  }

  lemma {:induction false} SortKeeps<T>(s: seq<T>, key: T -> seq<nat>)
    ensures multiset(Sort(s, key)) == multiset(s) && |Sort(s, key)| == |s|
  {
    if s != [] {
      var front := s[..|s| - 1];
      SortKeeps(front, key);
      InsertKeeps(s[|s| - 1], Sort(front, key), key);
      assert s == front + [s[|s| - 1]];
    }
  }

  lemma {:induction false} InsertSorts<T>(x: T, s: seq<T>, key: T -> seq<nat>)
    requires StrictlySorted(s, key) && forall y <- s :: key(y) != key(x)
    ensures StrictlySorted(Insert(x, s, key), key)
  {
    if s == [] {
    } else if Before(key(x), key(s[0])) {
      forall k | 0 < k < |s| ensures Before(key(x), key(s[k])) {
        BeforeTransitive(key(x), key(s[0]), key(s[k]));
      }
    } else {
      var rest := Insert(x, s[1..], key);
      InsertSorts(x, s[1..], key);
      InsertKeeps(x, s[1..], key);
      BeforeTotal(key(x), key(s[0]));
      forall y | y in rest ensures Before(key(s[0]), key(y)) {
        assert y in multiset(rest);
        if y != x {
          assert y in s[1..];
        }
      }
    }
  }

  lemma {:induction false} SortSorts<T>(s: seq<T>, key: T -> seq<nat>)
    requires DistinctKeys(s, key)
    ensures StrictlySorted(Sort(s, key), key)
  {
    if s != [] {
      var front := s[..|s| - 1];
      SortSorts(front, key);
      SortKeeps(front, key);
      forall y | y in Sort(front, key) ensures key(y) != key(s[|s| - 1]) {
        assert y in multiset(Sort(front, key));
        assert y in front;
      }
      InsertSorts(s[|s| - 1], Sort(front, key), key);
    }
  }

  lemma {:induction false} Stepwise<T>(s: seq<T>, key: T -> seq<nat>)
    ensures StrictlySorted(s, key) <==> StepwiseSorted(s, key)
  {
    if StepwiseSorted(s, key) {
      forall i, j | 0 <= i < j < |s| ensures Before(key(s[i]), key(s[j])) {
        StepsReach(s, key, i, j);
      }
    }
  }

  lemma {:induction false} StepsReach<T>(s: seq<T>, key: T -> seq<nat>, i: nat, j: nat)
    requires StepwiseSorted(s, key) && i < j < |s|
    ensures Before(key(s[i]), key(s[j]))
    decreases j
  {
    if i < j - 1 {
      StepsReach(s, key, i, j - 1);
      BeforeTransitive(key(s[i]), key(s[j - 1]), key(s[j]));
    }
  }

  lemma HeadIsLeast<T>(s: seq<T>, key: T -> seq<nat>, x: T)
    requires StrictlySorted(s, key) && x in s
    ensures x == s[0] || Before(key(s[0]), key(x))
  {
  }

  /** Strictly sorted lists with the same entries are the same list. */
  lemma {:induction false} SortedAreEqual<T>(s: seq<T>, t: seq<T>, key: T -> seq<nat>)
    requires StrictlySorted(s, key) && StrictlySorted(t, key)
    requires forall x :: x in s <==> x in t
    ensures s == t
    decreases |s|
  {
    if s != [] {
      assert s[0] in t;
      assert t[0] in s;
      HeadIsLeast(s, key, t[0]);
      HeadIsLeast(t, key, s[0]);
      if s[0] != t[0] {
        NotBoth(key(s[0]), key(t[0]));
        assert false;
      }
      TailMembers(s, key);
      TailMembers(t, key);
      SortedAreEqual(s[1..], t[1..], key);
      assert s == [s[0]] + s[1..] && t == [t[0]] + t[1..];
    } else {
      HasMember(t);
    }
  }

  lemma HasMember<T>(s: seq<T>)
    ensures s != [] ==> exists x :: x in s
  {
    if s != [] {
      assert s[0] in s;
    }
  }

  lemma TailMembers<T>(s: seq<T>, key: T -> seq<nat>)
    requires s != [] && StrictlySorted(s, key)
    ensures forall x :: x in s[1..] <==> x in s && x != s[0]
  {
    NotBeforeItself(key(s[0]));
    assert s == [s[0]] + s[1..];
  }

  lemma SortedKeysDiffer<T>(s: seq<T>, key: T -> seq<nat>)
    requires StrictlySorted(s, key)
    ensures DistinctKeys(s, key) && Distinct(s)
  {
    forall i, j | 0 <= i < j < |s| ensures key(s[i]) != key(s[j]) && s[i] != s[j] {
      NotBoth(key(s[i]), key(s[j]));
    }
  }

  lemma SortedMembers<T>(s: seq<T>, key: T -> seq<nat>)
    ensures forall x :: x in Sort(s, key) <==> x in s
  {
    SortKeeps(s, key);
    forall x ensures x in Sort(s, key) <==> x in s {
      assert x in multiset(Sort(s, key)) <==> x in multiset(s);
    }
  }

  /** The order of the input does not show in the output. */
  lemma SortIsCanonical<T>(s: seq<T>, t: seq<T>, key: T -> seq<nat>)
    requires multiset(s) == multiset(t) && DistinctKeys(s, key) && DistinctKeys(t, key)
    ensures Sort(s, key) == Sort(t, key)
  {
    SortSorts(s, key);
    SortSorts(t, key);
    SortedMembers(s, key);
    SortedMembers(t, key);
    forall x ensures x in Sort(s, key) <==> x in Sort(t, key) {
      assert x in multiset(s) <==> x in multiset(t);
    }
    SortedAreEqual(Sort(s, key), Sort(t, key), key);
  }

}
