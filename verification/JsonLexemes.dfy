/** Blanks, strings, numbers and words: what the scanner reads is what the grammar writes, and conversely. */
module JsonLexemes {
  import opened Foundations
  import opened JsonText
  import opened JsonScan

  // ---------------------------------------------------------------------
  // Blanks
  // ---------------------------------------------------------------------

  lemma BlankRead(text: Text, i: nat)
    requires i <= |text|
    ensures Blank(text[i..SkipBlank(text, i)]) && StartsAt(text, i, text[i..SkipBlank(text, i)])
  {
  }

  lemma {:induction false} BlankWritten(text: Text, i: nat, blank: Text)
    requires Blank(blank) && StartsAt(text, i, blank) && !IsBlank(At(text, i + |blank|))
    ensures SkipBlank(text, i) == i + |blank|
    decreases |blank|
  {
    if blank != [] {
      StartsEach(text, i, blank, 0);
      assert [blank[0]] + blank[1..] == blank;
      StartsConcat(text, i, [blank[0]], blank[1..]);
      BlankWritten(text, i + 1, blank[1..]);
    }
  }

  // ---------------------------------------------------------------------
  // Strings
  // ---------------------------------------------------------------------

  lemma StartsTwo(text: Text, i: nat, a: Unit, b: Unit)
    ensures StartsAt(text, i, [a, b]) <==> At(text, i) == a && At(text, i + 1) == b
  {
  }

  lemma StartsSix(text: Text, i: nat, a: Unit, b: Unit, c: Unit, d: Unit, e: Unit, f: Unit)
    ensures StartsAt(text, i, [a, b, c, d, e, f]) <==>
      && At(text, i) == a && At(text, i + 1) == b && At(text, i + 2) == c
      && At(text, i + 3) == d && At(text, i + 4) == e && At(text, i + 5) == f
  {
    var piece := [a, b, c, d, e, f];
    if StartsAt(text, i, piece) {
      StartsEach(text, i, piece, 0);
      StartsEach(text, i, piece, 1);
      StartsEach(text, i, piece, 2);
      StartsEach(text, i, piece, 3);
      StartsEach(text, i, piece, 4);
      StartsEach(text, i, piece, 5);
    }
  }

  /** The piece of a string that starts at a position, if the scanner would go on behind it. */
  function PieceAt(text: Text, i: nat): Option<Piece> {
    if i >= |text| || text[i] == QUOTE then None
    else if text[i] == BACKSLASH then
      if i + 1 >= |text| then None
      else if text[i + 1] == LOWER_U then
        if IsHex(At(text, i + 2)) && IsHex(At(text, i + 3)) && IsHex(At(text, i + 4)) && IsHex(At(text, i + 5))
        then Some(Hex(At(text, i + 2), At(text, i + 3), At(text, i + 4), At(text, i + 5)))
        else None
      else if IsShort(text[i + 1]) then Some(Short(text[i + 1])) else None
    else if text[i] < 0x20 then None
    else Some(Raw(text[i]))
  }

  lemma PieceRead(text: Text, i: nat)
    requires PieceAt(text, i).Some?
    ensures var piece := PieceAt(text, i).value;
      && GoodPiece(piece) && StartsAt(text, i, PieceText(piece)) && i + |PieceText(piece)| <= |text|
      && ReadChars(text, i) == Prepend(PieceValue(piece), ReadChars(text, i + |PieceText(piece)|))
  {
    match PieceAt(text, i).value
    case Raw(unit) => StartsUnit(text, i, unit);
    case Short(letter) => StartsTwo(text, i, BACKSLASH, letter);
    case Hex(a, b, c, d) => StartsSix(text, i, BACKSLASH, LOWER_U, a, b, c, d);
  }

  lemma PieceWritten(text: Text, i: nat, piece: Piece)
    requires GoodPiece(piece) && StartsAt(text, i, PieceText(piece))
    ensures PieceAt(text, i) == Some(piece)
  {
    match piece
    case Raw(unit) => StartsUnit(text, i, unit);
    case Short(letter) => StartsTwo(text, i, BACKSLASH, letter);
    case Hex(a, b, c, d) => StartsSix(text, i, BACKSLASH, LOWER_U, a, b, c, d);
  }

  lemma NoPiece(text: Text, i: nat)
    requires i <= |text| && PieceAt(text, i).None? && ReadChars(text, i).Key?
    ensures At(text, i) == QUOTE && ReadChars(text, i) == Key([], i + 1)
  {
  }

  lemma {:induction false} CharsRead(text: Text, i: nat) returns (chars: Chars)
    requires i <= |text| && ReadChars(text, i).Key?
    ensures GoodChars(chars) && StartsAt(text, i, CharsText(chars))
    ensures ReadChars(text, i) == Key(Decoded(chars), i + |CharsText(chars)|)
    decreases |text| - i
  {
    if PieceAt(text, i).None? {
      NoPiece(text, i);
      chars := Closing;
      StartsUnit(text, i, QUOTE);
    } else {
      var piece := PieceAt(text, i).value;
      PieceRead(text, i);
      var rest := CharsRead(text, i + |PieceText(piece)|);
      chars := Char(piece, rest);
      StartsConcat(text, i, PieceText(piece), CharsText(rest));
    }
  }

  lemma {:induction false} CharsWritten(text: Text, i: nat, chars: Chars)
    requires i <= |text| && GoodChars(chars) && StartsAt(text, i, CharsText(chars))
    ensures ReadChars(text, i) == Key(Decoded(chars), i + |CharsText(chars)|)
    decreases chars
  {
    match chars
    case Closing =>
      StartsUnit(text, i, QUOTE);
    case Char(piece, rest) =>
      StartsConcat(text, i, PieceText(piece), CharsText(rest));
      PieceWritten(text, i, piece);
      PieceRead(text, i);
      CharsWritten(text, i + |PieceText(piece)|, rest);
  }

  lemma StringRead(text: Text, i: nat) returns (chars: Chars)
    requires i <= |text| && ReadString(text, i).Key?
    ensures GoodChars(chars) && StartsAt(text, i, StringText(chars))
    ensures ReadString(text, i) == Key(Decoded(chars), i + |StringText(chars)|)
  {
    chars := CharsRead(text, i + 1);
    StartsUnit(text, i, QUOTE);
    StartsConcat(text, i, [QUOTE], CharsText(chars));
  }

  lemma StringWritten(text: Text, i: nat, chars: Chars)
    requires GoodChars(chars) && StartsAt(text, i, StringText(chars))
    ensures i < |text| && At(text, i) == QUOTE
    ensures ReadString(text, i) == Key(Decoded(chars), i + |StringText(chars)|)
  {
    StartsConcat(text, i, [QUOTE], CharsText(chars));
    StartsUnit(text, i, QUOTE);
    CharsWritten(text, i + 1, chars);
  }

  // ---------------------------------------------------------------------
  // Numbers
  // ---------------------------------------------------------------------

  lemma DigitsRead(text: Text, i: nat)
    requires i <= |text|
    ensures Digits(text[i..DigitsEnd(text, i)]) && StartsAt(text, i, text[i..DigitsEnd(text, i)])
  {
  }

  lemma {:induction false} DigitsWritten(text: Text, i: nat, digits: Text)
    requires Digits(digits) && StartsAt(text, i, digits) && !IsDigit(At(text, i + |digits|))
    ensures i <= |text| && DigitsEnd(text, i) == i + |digits|
    decreases |digits|
  {
    if digits != [] {
      StartsEach(text, i, digits, 0);
      assert [digits[0]] + digits[1..] == digits;
      StartsConcat(text, i, [digits[0]], digits[1..]);
      DigitsWritten(text, i + 1, digits[1..]);
    }
  }

  lemma WholeRead(text: Text, i: nat)
    requires i <= |text| && WholeEnd(text, i) > i
    ensures GoodWhole(text[i..WholeEnd(text, i)]) && StartsAt(text, i, text[i..WholeEnd(text, i)])
  {
    var whole := text[i..WholeEnd(text, i)];
    forall k | 0 <= k < |whole| ensures IsDigit(whole[k]) {
      assert whole[k] == text[i + k];
    }
  }

  lemma WholeWritten(text: Text, i: nat, whole: Text)
    requires GoodWhole(whole) && StartsAt(text, i, whole) && !IsDigit(At(text, i + |whole|))
    ensures i < |text| && WholeEnd(text, i) == i + |whole| && IsDigit(At(text, i))
  {
    StartsEach(text, i, whole, 0);
    if whole[0] != 48 {
      assert [whole[0]] + whole[1..] == whole;
      StartsConcat(text, i, [whole[0]], whole[1..]);
      DigitsWritten(text, i + 1, whole[1..]);
    }
  }

  function FractionDigits(text: Text, i: nat): Text
    requires i <= |text|
  {
    if FractionEnd(text, i) == i then [] else text[i + 1..FractionEnd(text, i)]
  }

  lemma FractionRead(text: Text, i: nat)
    requires i <= |text|
    ensures var digits := FractionDigits(text, i);
      Digits(digits) && StartsAt(text, i, FractionText(digits)) && FractionEnd(text, i) == i + |FractionText(digits)|
  {
    if FractionEnd(text, i) != i {
      DigitsRead(text, i + 1);
      StartsUnit(text, i, POINT);
      StartsConcat(text, i, [POINT], FractionDigits(text, i));
    }
  }

  lemma FractionWritten(text: Text, i: nat, digits: Text)
    requires i <= |text| && Digits(digits) && StartsAt(text, i, FractionText(digits))
    requires !IsDigit(At(text, i + |FractionText(digits)|))
    requires digits == [] ==> At(text, i) != POINT
    ensures FractionEnd(text, i) == i + |FractionText(digits)|
  {
    if digits != [] {
      StartsConcat(text, i, [POINT], digits);
      StartsUnit(text, i, POINT);
      StartsEach(text, i + 1, digits, 0);
      DigitsWritten(text, i + 1, digits);
    }
  }

  predicate IsE(u: int) {
    u == 101 || u == 69
  }

  lemma SignRead(text: Text, i: nat) returns (sign: Text)
    requires i <= |text|
    ensures (sign == [] || sign == [PLUS] || sign == [MINUS]) && StartsAt(text, i, sign) && SignEnd(text, i) == i + |sign|
  {
    sign := if SignEnd(text, i) == i then [] else [text[i]];
    if sign != [] {
      StartsUnit(text, i, text[i]);
    }
  }

  lemma ExponentSplit(text: Text, i: nat, letter: Unit, sign: Text, digits: Text)
    ensures StartsAt(text, i, ExponentText(Exponent(letter, sign, digits))) <==>
      At(text, i) == letter && StartsAt(text, i + 1, sign) && StartsAt(text, i + 1 + |sign|, digits)
    ensures |ExponentText(Exponent(letter, sign, digits))| == 1 + |sign| + |digits|
  {
    hide StartsAt;
    StartsUnit(text, i, letter);
    StartsConcat(text, i + 1, sign, digits);
    StartsConcat(text, i, [letter], sign + digits);
  }

  lemma ExponentRead(text: Text, i: nat) returns (exponent: Exponent)
    requires i <= |text|
    ensures GoodExponent(exponent) && StartsAt(text, i, ExponentText(exponent))
    ensures ExponentEnd(text, i) == i + |ExponentText(exponent)|
  {
    if ExponentEnd(text, i) == i {
      exponent := NoExponent;
    } else {
      var sign := SignRead(text, i + 1);
      var start := SignEnd(text, i + 1);
      var digits := text[start..DigitsEnd(text, start)];
      DigitsRead(text, start);
      exponent := Exponent(text[i], sign, digits);
      ExponentSplit(text, i, text[i], sign, digits);
    }
  }

  lemma SignWritten(text: Text, i: nat, sign: Text)
    requires sign == [] || sign == [PLUS] || sign == [MINUS]
    requires StartsAt(text, i, sign) && IsDigit(At(text, i + |sign|))
    ensures i <= |text| && SignEnd(text, i) == i + |sign|
  {
    if sign != [] {
      StartsEach(text, i, sign, 0);
    }
  }

  lemma ExponentWritten(text: Text, i: nat, exponent: Exponent)
    requires i <= |text| && GoodExponent(exponent) && StartsAt(text, i, ExponentText(exponent))
    requires !IsDigit(At(text, i + |ExponentText(exponent)|))
    requires exponent.NoExponent? ==> !IsE(At(text, i))
    ensures ExponentEnd(text, i) == i + |ExponentText(exponent)|
  {
    match exponent
    case NoExponent =>
    case Exponent(letter, sign, digits) =>
      ExponentSplit(text, i, letter, sign, digits);
      StartsEach(text, i + 1 + |sign|, digits, 0);
      SignWritten(text, i + 1, sign);
      DigitsWritten(text, i + 1 + |sign|, digits);
  }

  function MinusText(minus: bool): Text {
    if minus then [MINUS] else []
  }

  function MinusEnd(text: Text, i: nat): nat {
    if At(text, i) == MINUS then i + 1 else i
  }

  lemma TailRead(text: Text, i: nat) returns (fraction: Text, exponent: Exponent)
    requires i <= |text|
    ensures Digits(fraction) && GoodExponent(exponent)
    ensures StartsAt(text, i, FractionText(fraction) + ExponentText(exponent))
    ensures ExponentEnd(text, FractionEnd(text, i)) == i + |FractionText(fraction) + ExponentText(exponent)|
  {
    fraction := FractionDigits(text, i);
    FractionRead(text, i);
    exponent := ExponentRead(text, FractionEnd(text, i));
    StartsConcat(text, i, FractionText(fraction), ExponentText(exponent));
  }

  lemma MinusRead(text: Text, i: nat)
    requires i <= |text|
    ensures StartsAt(text, i, MinusText(At(text, i) == MINUS))
    ensures MinusEnd(text, i) == i + |MinusText(At(text, i) == MINUS)|
  {
  }

  lemma NumeralSplit(text: Text, i: nat, n: Numeral)
    ensures StartsAt(text, i, NumeralText(n)) <==>
      && StartsAt(text, i, MinusText(n.minus))
      && StartsAt(text, i + |MinusText(n.minus)|, n.whole)
      && StartsAt(text, i + |MinusText(n.minus)| + |n.whole|, FractionText(n.fraction) + ExponentText(n.exponent))
    ensures |NumeralText(n)| == |MinusText(n.minus)| + |n.whole| + |FractionText(n.fraction) + ExponentText(n.exponent)|
  {
    hide FractionText, ExponentText, StartsAt;
    var tail := FractionText(n.fraction) + ExponentText(n.exponent);
    StartsConcat(text, i + |MinusText(n.minus)|, n.whole, tail);
    StartsConcat(text, i, MinusText(n.minus), n.whole + tail);
  }

  lemma NumberRead(text: Text, i: nat) returns (numeral: Numeral)
    requires i <= |text| && NumberEnd(text, i) > i
    ensures GoodNumeral(numeral) && StartsAt(text, i, NumeralText(numeral))
    ensures NumberEnd(text, i) == i + |NumeralText(numeral)|
  {
    hide StartsAt, NumeralText, FractionText, ExponentText, WholeEnd, DigitsEnd, FractionEnd, ExponentEnd, SignEnd;
    var minus := At(text, i) == MINUS;
    var start := MinusEnd(text, i);
    var wholeEnd := WholeEnd(text, start);
    var whole := text[start..wholeEnd];
    WholeRead(text, start);
    var fraction, exponent := TailRead(text, wholeEnd);
    numeral := Numeral(minus, whole, fraction, exponent);
    NumeralSplit(text, i, numeral);
    MinusRead(text, i);
  }

  /** What may follow a value: nothing, a blank, a comma, a closing bracket or brace. */
  predicate Follows(u: int) {
    u == -1 || IsBlank(u) || u == COMMA || u == CLOSE_BRACE || u == CLOSE_BRACKET
  }

  lemma TailStart(text: Text, i: nat, fraction: Text, exponent: Exponent)
    requires Digits(fraction) && GoodExponent(exponent)
    requires StartsAt(text, i, FractionText(fraction) + ExponentText(exponent))
    requires Follows(At(text, i + |FractionText(fraction) + ExponentText(exponent)|))
    ensures i <= |text| && !IsDigit(At(text, i)) && (fraction == [] ==> At(text, i) != POINT)
    ensures StartsAt(text, i, FractionText(fraction)) && StartsAt(text, i + |FractionText(fraction)|, ExponentText(exponent))
    ensures var e := i + |FractionText(fraction)|; !IsDigit(At(text, e)) && (exponent.NoExponent? ==> !IsE(At(text, e)))
  {
    StartsConcat(text, i, FractionText(fraction), ExponentText(exponent));
    var e := i + |FractionText(fraction)|;
    if exponent.Exponent? {
      StartsConcat(text, e, [exponent.letter], exponent.sign + exponent.digits);
      StartsUnit(text, e, exponent.letter);
    }
    if fraction != [] {
      StartsConcat(text, i, [POINT], fraction);
      StartsUnit(text, i, POINT);
    }
  }

  lemma TailWritten(text: Text, i: nat, fraction: Text, exponent: Exponent)
    requires Digits(fraction) && GoodExponent(exponent)
    requires StartsAt(text, i, FractionText(fraction) + ExponentText(exponent))
    requires Follows(At(text, i + |FractionText(fraction) + ExponentText(exponent)|))
    ensures i <= |text| && !IsDigit(At(text, i))
    ensures ExponentEnd(text, FractionEnd(text, i)) == i + |FractionText(fraction) + ExponentText(exponent)|
  {
    TailStart(text, i, fraction, exponent);
    FractionWritten(text, i, fraction);
    ExponentWritten(text, i + |FractionText(fraction)|, exponent);
  }

  lemma MinusWritten(text: Text, i: nat, minus: bool)
    requires StartsAt(text, i, MinusText(minus)) && IsDigit(At(text, i + |MinusText(minus)|))
    ensures MinusEnd(text, i) == i + |MinusText(minus)|
  {
    if minus {
      StartsUnit(text, i, MINUS);
    }
  }

  /** A number that is properly followed is matched to its end. */
  lemma NumberWritten(text: Text, i: nat, numeral: Numeral)
    requires GoodNumeral(numeral) && StartsAt(text, i, NumeralText(numeral))
    requires Follows(At(text, i + |NumeralText(numeral)|))
    ensures i < |text| && NumberEnd(text, i) == i + |NumeralText(numeral)| > i
    ensures At(text, i) == MINUS || IsDigit(At(text, i))
  {
    hide StartsAt, NumeralText, FractionText, ExponentText, WholeEnd, DigitsEnd, FractionEnd, ExponentEnd, SignEnd;
    var start := i + |MinusText(numeral.minus)|;
    NumeralSplit(text, i, numeral);
    TailWritten(text, start + |numeral.whole|, numeral.fraction, numeral.exponent);
    WholeWritten(text, start, numeral.whole);
    MinusWritten(text, i, numeral.minus);
    if numeral.minus {
      StartsUnit(text, i, MINUS);
    }
  }

  // ---------------------------------------------------------------------
  // Words and numbers
  // ---------------------------------------------------------------------

  lemma PlainRead(text: Text, i: nat) returns (value: Value)
    requires i <= |text| && ReadPlain(text, i).Ok?
    ensures (value.WordValue? || value.NumberValue?) && GoodValue(value)
    ensures StartsAt(text, i, ValueText(value)) && ReadPlain(text, i) == Ok(i + |ValueText(value)|)
  {
    if StartsAt(text, i, WordText(True)) {
      value := WordValue(True);
    } else if StartsAt(text, i, WordText(False)) {
      value := WordValue(False);
    } else if StartsAt(text, i, WordText(Null)) {
      value := WordValue(Null);
    } else {
      var numeral := NumberRead(text, i);
      value := NumberValue(numeral);
    }
  }

  lemma WordStarts(text: Text, i: nat, word: Word)
    requires StartsAt(text, i, WordText(word))
    ensures At(text, i) == WordText(word)[0]
  {
    StartsEach(text, i, WordText(word), 0);
  }

  lemma WordWritten(text: Text, i: nat, word: Word)
    requires StartsAt(text, i, WordText(word))
    ensures i < |text| && ReadPlain(text, i) == Ok(i + |WordText(word)|)
    ensures At(text, i) == 116 || At(text, i) == 102 || At(text, i) == 110
  {
    WordStarts(text, i, word);
    if StartsAt(text, i, WordText(True)) {
      WordStarts(text, i, True);
    }
    if StartsAt(text, i, WordText(False)) {
      WordStarts(text, i, False);
    }
  }

  lemma NoWordWritten(text: Text, i: nat, word: Word)
    requires At(text, i) == MINUS || IsDigit(At(text, i))
    ensures !StartsAt(text, i, WordText(word))
  {
    if StartsAt(text, i, WordText(word)) {
      WordStarts(text, i, word);
    }
  }

  lemma PlainWritten(text: Text, i: nat, value: Value)
    requires (value.WordValue? || value.NumberValue?) && GoodValue(value) && StartsAt(text, i, ValueText(value))
    requires Follows(At(text, i + |ValueText(value)|))
    ensures i < |text| && ReadPlain(text, i) == Ok(i + |ValueText(value)|)
    ensures At(text, i) != OPEN_BRACE && At(text, i) != OPEN_BRACKET && At(text, i) != QUOTE && !IsBlank(At(text, i))
  {
    if value.WordValue? {
      WordWritten(text, i, value.word);
    } else {
      NumberWritten(text, i, value.numeral);
      NoWordWritten(text, i, True);
      NoWordWritten(text, i, False);
      NoWordWritten(text, i, Null);
    }
  }
}
