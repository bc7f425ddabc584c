/**
 The POSIX checksum (crcTable and posixCksum in packages/core/src/activation.ts:440-471;
 IEEE Std 1003.1-2017, XCU chapter 4, utility cksum): a table-driven loop over the octets
 of a message and of its length, against bit-by-bit polynomial division. A 32-bit word is
 the sequence of its bits, highest first.
 */
module Cksum {

  type Bits = seq<bool>

  type Octet = n: nat | n < 256

  predicate Word(bits: Bits) {
    |bits| == 32
  }

  function Xor(a: Bits, b: Bits): (sum: Bits)
    requires |a| == |b|
    ensures |sum| == |a| && forall i :: 0 <= i < |a| ==> sum[i] == (a[i] != b[i])
  {
    seq(|a|, i requires 0 <= i < |a| => a[i] != b[i])
  }

  function Complement(a: Bits): (bits: Bits)
    ensures |bits| == |a| && forall i :: 0 <= i < |a| ==> bits[i] == !a[i]
  {
    seq(|a|, i requires 0 <= i < |a| => !a[i])
  }

  function Zeros(n: nat): (bits: Bits)
    ensures |bits| == n && forall i :: 0 <= i < n ==> !bits[i]
  {
    seq(n, _ => false)
  }

  /** A number in a given width, highest bit first. */
  function NatBits(width: nat, n: nat): (bits: Bits)
    ensures |bits| == width
  {
    if width == 0 then [] else NatBits(width - 1, n / 2) + [n % 2 == 1]
  }

  function Value(bits: Bits): nat {
    if bits == [] then 0
    else 2 * Value(bits[..|bits| - 1]) + if bits[|bits| - 1] then 1 else 0
  }

  lemma {:induction false} BitsOfValue(bits: Bits)
    ensures NatBits(|bits|, Value(bits)) == bits
    decreases |bits|
  {
    if bits != [] {
      BitsOfValue(bits[..|bits| - 1]);
      assert Value(bits) / 2 == Value(bits[..|bits| - 1]);
    }
  }

  function Power(n: nat): nat {
    if n == 0 then 1 else 2 * Power(n - 1)
  }

  lemma {:induction false} ValueFits(bits: Bits)
    ensures Value(bits) < Power(|bits|)
    decreases |bits|
  {
    if bits != [] {
      ValueFits(bits[..|bits| - 1]);
    }
  }

  // ---------------------------------------------------------------------
  // Polynomial division
  // ---------------------------------------------------------------------

  /** The divisor without its leading term x^32. */
  const DIVISOR: Bits := NatBits(32, 0x04C11DB7)

  /** Brings down the next bit and subtracts the divisor when a coefficient of x^32 appears. */
  function DivideBit(remainder: Bits, bit: bool): (r: Bits)
    requires Word(remainder)
    ensures Word(r)
  {
    var brought := remainder[1..] + [bit];
    if remainder[0] then Xor(brought, DIVISOR) else brought
  }

  function Divide(remainder: Bits, bits: Bits): (r: Bits)
    requires Word(remainder)
    ensures Word(r)
    decreases |bits|
  {
    if bits == [] then remainder else Divide(DivideBit(remainder, bits[0]), bits[1..])
  }

  function MessageBits(octets: seq<Octet>): Bits {
    if octets == [] then [] else NatBits(8, octets[0]) + MessageBits(octets[1..])
  }

  /** The octets of a length, lowest first, as few as hold it. */
  function LengthOctets(length: nat): seq<Octet> {
    if length == 0 then [] else [length % 256] + LengthOctets(length / 256)
  }

  /** The complemented remainder of the message, followed by its length, times x^32. */
  function Checksum(octets: seq<Octet>): nat {
    Value(Complement(Divide(Zeros(32), MessageBits(octets + LengthOctets(|octets|)) + Zeros(32))))
  }

  // ---------------------------------------------------------------------
  // The table
  // ---------------------------------------------------------------------

  /** The register moved up, the bits that leave it dropped. */
  function ShiftLeft(crc: Bits, n: nat): (r: Bits)
    requires n <= |crc|
    ensures |r| == |crc|
  {
    crc[n..] + Zeros(n)
  }

  function Shift(crc: Bits): (r: Bits)
    requires Word(crc)
    ensures Word(r)
  {
    if crc[0] then Xor(ShiftLeft(crc, 1), DIVISOR) else ShiftLeft(crc, 1)
  }

  function Shifts(n: nat, crc: Bits): (r: Bits)
    requires Word(crc)
    ensures Word(r)
  {
    if n == 0 then crc else Shifts(n - 1, Shift(crc))
  }

  /** An octet at the top of a register. */
  function Raised(bits: Bits): (r: Bits)
    requires |bits| == 8
    ensures Word(r)
  {
    bits + Zeros(24)
  }

  predicate IsTable(table: seq<Bits>) {
    |table| == 256 && forall i :: 0 <= i < 256 ==> table[i] == Shifts(8, Raised(NatBits(8, i)))
  }

  method CrcTable() returns (table: array<Bits>)
    ensures fresh(table) && IsTable(table[..])
  {
    table := new Bits[256](_ => []);
    for byte := 0 to 256
      invariant forall i :: 0 <= i < byte ==> table[i] == Shifts(8, Raised(NatBits(8, i)))
    {
      var crc := Raised(NatBits(8, byte));
      for bit := 0 to 8
        invariant Word(crc) && Shifts(8 - bit, crc) == Shifts(8, Raised(NatBits(8, byte)))
      {
        crc := if crc[0] then Xor(ShiftLeft(crc, 1), DIVISOR) else ShiftLeft(crc, 1);
      }
      table[byte] := crc;
    }
  }

  // ---------------------------------------------------------------------
  // Shifting is linear
  // ---------------------------------------------------------------------

  lemma ShiftIsLinear(a: Bits, b: Bits)
    requires Word(a) && Word(b)
    ensures Shift(Xor(a, b)) == Xor(Shift(a), Shift(b))
  {
  }

  lemma {:induction false} ShiftsAreLinear(n: nat, a: Bits, b: Bits)
    requires Word(a) && Word(b)
    ensures Shifts(n, Xor(a, b)) == Xor(Shifts(n, a), Shifts(n, b))
  {
    if n > 0 {
      ShiftIsLinear(a, b);
      ShiftsAreLinear(n - 1, Shift(a), Shift(b));
    }
  }

  lemma {:induction false} ShiftsCompose(m: nat, n: nat, crc: Bits)
    requires Word(crc)
    ensures Shifts(m + n, crc) == Shifts(n, Shifts(m, crc))
  {
    if m > 0 {
      ShiftsCompose(m - 1, n, Shift(crc));
    }
  }

  /** A word without its highest bits is only moved. */
  lemma {:induction false} LowBitsMove(n: nat, crc: Bits)
    requires Word(crc) && n <= 32 && forall i :: 0 <= i < n ==> !crc[i]
    ensures Shifts(n, crc) == ShiftLeft(crc, n)
  {
    if n == 0 {
      assert ShiftLeft(crc, 0) == crc;
    } else {
      var moved := Shift(crc);
      assert moved == ShiftLeft(crc, 1);
      LowBitsMove(n - 1, moved);
      assert ShiftLeft(moved, n - 1) == ShiftLeft(crc, n);
    }
  }

  // ---------------------------------------------------------------------
  // One octet at a time
  // ---------------------------------------------------------------------

  /** What feeding one octet does to the register. */
  function FeedOctet(crc: Bits, octet: Octet): (r: Bits)
    requires Word(crc)
    ensures Word(r)
  {
    Shifts(8, Xor(crc, Raised(NatBits(8, octet))))
  }

  function Feed(crc: Bits, octets: seq<Octet>): (r: Bits)
    requires Word(crc)
    ensures Word(r)
    decreases |octets|
  {
    if octets == [] then crc else Feed(FeedOctet(crc, octets[0]), octets[1..])
  }

  /** The top octet of the register, combined with the next octet of the message. */
  function IndexBits(crc: Bits, octet: Octet): (bits: Bits)
    requires Word(crc)
    ensures |bits| == 8
  {
    Xor(crc[..8], NatBits(8, octet))
  }

  function Index(crc: Bits, octet: Octet): (index: nat)
    requires Word(crc)
    ensures index < 256
  {
    ValueFits(IndexBits(crc, octet));
    assert Power(8) == 2 * Power(7) == 4 * Power(6) == 8 * Power(5) == 16 * Power(4);
    Value(IndexBits(crc, octet))
  }

  lemma IndexSplits(crc: Bits, octet: Octet)
    requires Word(crc)
    ensures Xor(crc, Raised(NatBits(8, octet))) == Xor(Raised(IndexBits(crc, octet)), Zeros(8) + crc[8..])
  {
  }

  /** One table lookup feeds one octet. */
  lemma TableFeedsOctet(table: seq<Bits>, crc: Bits, octet: Octet)
    requires IsTable(table) && Word(crc)
    ensures Word(table[Index(crc, octet)])
    ensures Xor(table[Index(crc, octet)], ShiftLeft(crc, 8)) == FeedOctet(crc, octet)
  {
    var bits, low := IndexBits(crc, octet), Zeros(8) + crc[8..];
    BitsOfValue(bits);
    IndexSplits(crc, octet);
    ShiftsAreLinear(8, Raised(bits), low);
    LowBitsMove(8, low);
    assert ShiftLeft(low, 8) == ShiftLeft(crc, 8);
  }

  lemma {:induction false} FeedAppend(crc: Bits, a: seq<Octet>, b: seq<Octet>)
    requires Word(crc)
    ensures Feed(crc, a + b) == Feed(Feed(crc, a), b)
    decreases |a|
  {
    if a == [] {
      assert a + b == b;
    } else {
      FeedAppend(FeedOctet(crc, a[0]), a[1..], b);
      assert (a + b)[1..] == a[1..] + b;
    }
  }

  // ---------------------------------------------------------------------
  // One bit at a time
  // ---------------------------------------------------------------------

  function Top(bit: bool): (r: Bits)
    ensures Word(r)
  {
    [bit] + Zeros(31)
  }

  /** Feeding one bit into the top of the register. */
  function FeedBit(crc: Bits, bit: bool): (r: Bits)
    requires Word(crc)
    ensures Word(r)
  {
    Shift(Xor(crc, Top(bit)))
  }

  function FeedBits(crc: Bits, bits: Bits): (r: Bits)
    requires Word(crc)
    ensures Word(r)
    decreases |bits|
  {
    if bits == [] then crc else FeedBits(FeedBit(crc, bits[0]), bits[1..])
  }

  lemma XorGroups(a: Bits, b: Bits, c: Bits)
    requires |a| == |b| == |c|
    ensures Xor(a, Xor(b, c)) == Xor(Xor(a, b), c)
  {
  }

  lemma XorZeros(a: Bits)
    ensures Xor(a, Zeros(|a|)) == a
  {
  }

  /** Bits at the top of a word, and the same without the first of them. */
  function AtTop(bits: Bits): (r: Bits)
    requires |bits| <= 32
    ensures Word(r)
  {
    bits + Zeros(32 - |bits|)
  }

  function WithoutFirst(bits: Bits): (r: Bits)
    requires 0 < |bits| <= 32
    ensures Word(r)
  {
    [false] + bits[1..] + Zeros(32 - |bits|)
  }

  lemma FirstApart(bits: Bits)
    requires 0 < |bits| <= 32
    ensures Xor(Top(bits[0]), WithoutFirst(bits)) == AtTop(bits)
  {
  }

  lemma FirstGone(bits: Bits)
    requires 0 < |bits| <= 32
    ensures Shift(WithoutFirst(bits)) == AtTop(bits[1..])
  {
  }

  /** Adding several bits at the top and shifting them out feeds them one by one. */
  lemma {:induction false} FeedTogether(crc: Bits, bits: Bits)
    requires Word(crc) && |bits| <= 32
    ensures Shifts(|bits|, Xor(crc, AtTop(bits))) == FeedBits(crc, bits)
    decreases |bits|
  {
    if bits == [] {
      assert AtTop(bits) == Zeros(32);
      XorZeros(crc);
    } else {
      FirstApart(bits);
      FirstGone(bits);
      XorGroups(crc, Top(bits[0]), WithoutFirst(bits));
      ShiftIsLinear(Xor(crc, Top(bits[0])), WithoutFirst(bits));
      FeedTogether(FeedBit(crc, bits[0]), bits[1..]);
    }
  }

  lemma {:induction false} FeedBitsAppend(crc: Bits, a: Bits, b: Bits)
    requires Word(crc)
    ensures FeedBits(crc, a + b) == FeedBits(FeedBits(crc, a), b)
    decreases |a|
  {
    if a == [] {
      assert a + b == b;
    } else {
      FeedBitsAppend(FeedBit(crc, a[0]), a[1..], b);
      assert (a + b)[1..] == a[1..] + b;
    }
  }

  lemma {:induction false} FeedIsBitwise(crc: Bits, octets: seq<Octet>)
    requires Word(crc)
    ensures Feed(crc, octets) == FeedBits(crc, MessageBits(octets))
    decreases |octets|
  {
    if octets != [] {
      FeedTogether(crc, NatBits(8, octets[0]));
      assert AtTop(NatBits(8, octets[0])) == Raised(NatBits(8, octets[0]));
      FeedBitsAppend(crc, NatBits(8, octets[0]), MessageBits(octets[1..]));
      FeedIsBitwise(FeedOctet(crc, octets[0]), octets[1..]);
    }
  }

  // ---------------------------------------------------------------------
  // Feeding is dividing
  // ---------------------------------------------------------------------

  function Unit(bit: bool): (r: Bits)
    ensures Word(r)
  {
    Zeros(31) + [bit]
  }

  /** A bit at the bottom reaches the top after 31 shifts. */
  lemma UnitRises(bit: bool)
    ensures Shifts(32, Unit(bit)) == Shift(Top(bit))
  {
    LowBitsMove(31, Unit(bit));
    assert ShiftLeft(Unit(bit), 31) == Top(bit);
    ShiftsCompose(31, 1, Unit(bit));
    assert Shifts(1, Top(bit)) == Shifts(0, Shift(Top(bit)));
  }

  lemma DivideIsShift(remainder: Bits, bit: bool)
    requires Word(remainder)
    ensures DivideBit(remainder, bit) == Xor(Shift(remainder), Unit(bit))
  {
  }

  lemma ShiftPastShifts(n: nat, crc: Bits)
    requires Word(crc)
    ensures Shifts(n, Shift(crc)) == Shift(Shifts(n, crc))
  {
    ShiftsCompose(n, 1, crc);
    assert Shifts(n + 1, crc) == Shifts(n, Shift(crc));
    assert Shifts(1, Shifts(n, crc)) == Shifts(0, Shift(Shifts(n, crc)));
  }

  /** A bit brought down now and moved up 32 places is a bit fed in at the top. */
  lemma DivideThenShift(remainder: Bits, bit: bool)
    requires Word(remainder)
    ensures Shifts(32, DivideBit(remainder, bit)) == FeedBit(Shifts(32, remainder), bit)
  {
    var n := 32;
    calc {
      Shifts(n, DivideBit(remainder, bit));
      { DivideIsShift(remainder, bit); }
      Shifts(n, Xor(Shift(remainder), Unit(bit)));
      { ShiftsAreLinear(n, Shift(remainder), Unit(bit)); }
      Xor(Shifts(n, Shift(remainder)), Shifts(n, Unit(bit)));
      { ShiftPastShifts(n, remainder); UnitRises(bit); }
      Xor(Shift(Shifts(n, remainder)), Shift(Top(bit)));
      { ShiftIsLinear(Shifts(n, remainder), Top(bit)); }
      FeedBit(Shifts(n, remainder), bit);
    }
  }

  lemma {:induction false} FeedIsDivision(remainder: Bits, bits: Bits)
    requires Word(remainder)
    ensures FeedBits(Shifts(32, remainder), bits) == Shifts(32, Divide(remainder, bits))
    decreases |bits|
  {
    if bits != [] {
      DivideThenShift(remainder, bits[0]);
      FeedIsDivision(DivideBit(remainder, bits[0]), bits[1..]);
    }
  }

  lemma {:induction false} ZerosShift(n: nat, remainder: Bits)
    requires Word(remainder)
    ensures Divide(remainder, Zeros(n)) == Shifts(n, remainder)
    decreases n
  {
    if n > 0 {
      assert Zeros(n)[1..] == Zeros(n - 1);
      assert remainder[1..] + [false] == ShiftLeft(remainder, 1);
      ZerosShift(n - 1, Shift(remainder));
    }
  }

  lemma {:induction false} DivideAppend(remainder: Bits, a: Bits, b: Bits)
    requires Word(remainder)
    ensures Divide(remainder, a + b) == Divide(Divide(remainder, a), b)
    decreases |a|
  {
    if a == [] {
      assert a + b == b;
    } else {
      DivideAppend(DivideBit(remainder, a[0]), a[1..], b);
      assert (a + b)[1..] == a[1..] + b;
    }
  }

  /** Feeding octets into an empty register leaves the remainder of the message times x^32. */
  lemma FeedLeavesRemainder(octets: seq<Octet>)
    ensures Feed(Zeros(32), octets) == Divide(Zeros(32), MessageBits(octets) + Zeros(32))
  {
    var bits := MessageBits(octets);
    FeedIsBitwise(Zeros(32), octets);
    LowBitsMove(32, Zeros(32));
    assert ShiftLeft(Zeros(32), 32) == Zeros(32);
    FeedIsDivision(Zeros(32), bits);
    DivideAppend(Zeros(32), bits, Zeros(32));
    ZerosShift(32, Divide(Zeros(32), bits));
  }

  // ---------------------------------------------------------------------
  // The length
  // ---------------------------------------------------------------------

  function LittleEndian(octets: seq<Octet>): nat {
    if octets == [] then 0 else octets[0] + 256 * LittleEndian(octets[1..])
  }

  /** The length octets hold the length, and none of them is superfluous. */
  lemma {:induction false} LengthOctetsMeaning(length: nat)
    ensures LittleEndian(LengthOctets(length)) == length
    ensures length != 0 ==> LengthOctets(length)[|LengthOctets(length)| - 1] != 0
  {
    if length != 0 {
      LengthOctetsMeaning(length / 256);
      assert LengthOctets(length)[1..] == LengthOctets(length / 256);
    }
  }

  // ---------------------------------------------------------------------
  // The checksum
  // ---------------------------------------------------------------------

  const DIGITS := "0123456789"

  function Decimal(n: nat): (text: string)
    ensures text != "" && forall c <- text :: c in DIGITS
  {
    if n < 10 then [DIGITS[n]] else Decimal(n / 10) + [DIGITS[n % 10]]
  }

  /** The decimal checksum, a space, the decimal number of octets. */
  function CksumText(octets: seq<Octet>): string {
    Decimal(Checksum(octets)) + " " + Decimal(|octets|)
  }

  method FeedByTable(table: array<Bits>, crc: Bits, octets: seq<Octet>) returns (fed: Bits)
    requires IsTable(table[..]) && Word(crc)
    ensures fed == Feed(crc, octets)
  {
    fed := crc;
    assert octets[0..] == octets;
    for i := 0 to |octets|
      invariant Word(fed) && Feed(fed, octets[i..]) == Feed(crc, octets)
    {
      TableFeedsOctet(table[..], fed, octets[i]);
      assert octets[i..][0] == octets[i] && octets[i..][1..] == octets[i + 1..];
      fed := Xor(table[Index(fed, octets[i])], ShiftLeft(fed, 8));
    }
  }

  method FeedLength(table: array<Bits>, crc: Bits, length: nat) returns (fed: Bits)
    requires IsTable(table[..]) && Word(crc)
    ensures fed == Feed(crc, LengthOctets(length))
  {
    fed := crc;
    var rest := length;
    while rest != 0
      invariant Word(fed) && Feed(fed, LengthOctets(rest)) == Feed(crc, LengthOctets(length))
    {
      TableFeedsOctet(table[..], fed, rest % 256);
      assert LengthOctets(rest)[1..] == LengthOctets(rest / 256);
      fed := Xor(table[Index(fed, rest % 256)], ShiftLeft(fed, 8));
      rest := rest / 256;
    }
  }

  method PosixCksum(table: array<Bits>, octets: seq<Octet>) returns (text: string)
    requires IsTable(table[..])
    ensures text == CksumText(octets)
  {
    var crc := FeedByTable(table, Zeros(32), octets);
    crc := FeedLength(table, crc, |octets|);
    FeedAppend(Zeros(32), octets, LengthOctets(|octets|));
    FeedLeavesRemainder(octets + LengthOctets(|octets|));
    text := Decimal(Value(Complement(crc))) + " " + Decimal(|octets|);
  }
}
