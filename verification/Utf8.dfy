/**
 Well-formed UTF-8 over octets (section 4 of RFC 3629). A decoded text is represented by
 the octets that encode it, without a leading byte order mark.
 */
module Utf8 {
  import opened Foundations
  import opened MutationModel

  function At(bytes: Bytes, i: nat): int {
    if i < |bytes| then bytes[i] as int else -1
  }

  predicate Continues(bytes: Bytes, i: nat) {
    0x80 <= At(bytes, i) <= 0xBF
  }

  /** The octets taken by the character at a position; 0 when there is none. */
  function Width(bytes: Bytes, i: nat): (n: nat)
    ensures n <= 4
    ensures n > 0 ==> i + n <= |bytes|
  {
    var lead, second := At(bytes, i), At(bytes, i + 1);
    if 0 <= lead <= 0x7F then 1
    else if 0xC2 <= lead <= 0xDF then
      if Continues(bytes, i + 1) then 2 else 0
    else if 0xE0 <= lead <= 0xEF then
      if Continues(bytes, i + 1) && Continues(bytes, i + 2) &&
         (lead == 0xE0 ==> second >= 0xA0) && (lead == 0xED ==> second <= 0x9F)
      then 3 else 0
    else if 0xF0 <= lead <= 0xF4 then
      if Continues(bytes, i + 1) && Continues(bytes, i + 2) && Continues(bytes, i + 3) &&
         (lead == 0xF0 ==> second >= 0x90) && (lead == 0xF4 ==> second <= 0x8F)
      then 4 else 0
    else 0
  }

  predicate ValidFrom(bytes: Bytes, i: nat)
    requires i <= |bytes|
    decreases |bytes| - i
  {
    i == |bytes| || (Width(bytes, i) > 0 && ValidFrom(bytes, i + Width(bytes, i)))
  }

  predicate Valid(bytes: Bytes) {
    ValidFrom(bytes, 0)
  }

  predicate StartsWithMark(bytes: Bytes) {
    At(bytes, 0) == 0xEF && At(bytes, 1) == 0xBB && At(bytes, 2) == 0xBF
  }

  /** Decoding that rejects what is not UTF-8 and drops a byte order mark at the start. */
  function Decode(bytes: Bytes): Option<Bytes> {
    if !Valid(bytes) then None
    else if StartsWithMark(bytes) then Some(bytes[3..])
    else Some(bytes)
  }

  predicate Ascii(bytes: Bytes) {
    forall i :: 0 <= i < |bytes| ==> bytes[i] as int <= 0x7F
  }

  lemma {:induction false} AsciiFrom(bytes: Bytes, i: nat)
    requires Ascii(bytes) && i <= |bytes|
    ensures ValidFrom(bytes, i)
    decreases |bytes| - i
  {
    if i < |bytes| {
      AsciiFrom(bytes, i + 1);
    }
  }

  /** ASCII text decodes to itself. */
  lemma AsciiDecodes(bytes: Bytes)
    requires Ascii(bytes)
    ensures Decode(bytes) == Some(bytes)
  {
    AsciiFrom(bytes, 0);
  }

  lemma {:induction false} ValidLeft(a: Bytes, b: Bytes, i: nat)
    requires i <= |a| && ValidFrom(a, i) && ValidFrom(a + b, |a|)
    ensures ValidFrom(a + b, i)
    decreases |a| - i
  {
    if i < |a| {
      assert Width(a + b, i) == Width(a, i);
      ValidLeft(a, b, i + Width(a, i));
    }
  }

  lemma {:induction false} ValidRight(a: Bytes, b: Bytes, i: nat)
    requires i <= |b| && ValidFrom(b, i)
    ensures ValidFrom(a + b, |a| + i)
    decreases |b| - i
  {
    if i < |b| {
      assert Width(a + b, |a| + i) == Width(b, i);
      ValidRight(a, b, i + Width(b, i));
    }
  }

  lemma ValidConcat(a: Bytes, b: Bytes)
    requires Valid(a) && Valid(b)
    ensures Valid(a + b)
  {
    ValidRight(a, b, 0);
    ValidLeft(a, b, 0);
  }
}
