/**
 JSON texts over UTF-16 code units, written out from their syntax trees (sections 2 to 7
 of RFC 8259). A tree keeps the blanks, so that every text has exactly the trees that
 render to it.
 */
module JsonText {
  import opened Foundations

  type Unit = u: nat | u < 0x10000

  type Text = seq<Unit>

  const QUOTE: Unit := 34
  const BACKSLASH: Unit := 92
  const COMMA: Unit := 44
  const COLON: Unit := 58
  const OPEN_BRACE: Unit := 123
  const CLOSE_BRACE: Unit := 125
  const OPEN_BRACKET: Unit := 91
  const CLOSE_BRACKET: Unit := 93
  const MINUS: Unit := 45
  const PLUS: Unit := 43
  const POINT: Unit := 46
  const LOWER_U: Unit := 117

  /** The unit at a position; a negative number stands for none. */
  function At(text: Text, i: nat): int {
    if i < |text| then text[i] else -1
  }

  /** Space, tab, line feed, carriage return. */
  predicate IsBlank(u: int) {
    u == 32 || u == 9 || u == 10 || u == 13
  }

  predicate Blank(text: Text) {
    forall i :: 0 <= i < |text| ==> IsBlank(text[i])
  }

  predicate IsDigit(u: int) {
    48 <= u <= 57
  }

  predicate Digits(text: Text) {
    forall i :: 0 <= i < |text| ==> IsDigit(text[i])
  }

  predicate IsHex(u: int) {
    IsDigit(u) || 65 <= u <= 70 || 97 <= u <= 102
  }

  function HexValue(u: int): (v: nat)
    ensures v < 16
  {
    if IsDigit(u) then u - 48 else if 65 <= u <= 70 then u - 55 else if 97 <= u <= 102 then u - 87 else 0
  }

  // ---------------------------------------------------------------------
  // Strings
  // ---------------------------------------------------------------------

  datatype Piece = Raw(unit: Unit) | Short(letter: Unit) | Hex(a: Unit, b: Unit, c: Unit, d: Unit)

  /** The rest of a string after its opening quote. */
  datatype Chars = Closing | Char(piece: Piece, rest: Chars)

  /** Quote, backslash, slash, b, f, n, r, t. */
  predicate IsShort(u: int) {
    u == 34 || u == 92 || u == 47 || u == 98 || u == 102 || u == 110 || u == 114 || u == 116
  }

  function ShortValue(u: int): Unit {
    if u == 98 then 8 else if u == 102 then 12 else if u == 110 then 10
    else if u == 114 then 13 else if u == 116 then 9
    else if u == 92 then 92 else if u == 47 then 47 else 34
  }

  function HexUnit(a: int, b: int, c: int, d: int): Unit {
    4096 * HexValue(a) + 256 * HexValue(b) + 16 * HexValue(c) + HexValue(d)
  }

  predicate GoodPiece(piece: Piece) {
    match piece
    case Raw(unit) => unit >= 0x20 && unit != QUOTE && unit != BACKSLASH
    case Short(letter) => IsShort(letter)
    case Hex(a, b, c, d) => IsHex(a) && IsHex(b) && IsHex(c) && IsHex(d)
  }

  function PieceText(piece: Piece): Text {
    match piece
    case Raw(unit) => [unit]
    case Short(letter) => [BACKSLASH, letter]
    case Hex(a, b, c, d) => [BACKSLASH, LOWER_U, a, b, c, d]
  }

  function PieceValue(piece: Piece): Unit {
    match piece
    case Raw(unit) => unit
    case Short(letter) => ShortValue(letter)
    case Hex(a, b, c, d) => HexUnit(a, b, c, d)
  }

  predicate GoodChars(chars: Chars) {
    match chars
    case Closing => true
    case Char(piece, rest) => GoodPiece(piece) && GoodChars(rest)
  }

  function CharsText(chars: Chars): Text {
    match chars
    case Closing => [QUOTE]
    case Char(piece, rest) => PieceText(piece) + CharsText(rest)
  }

  /** The decoded string. */
  function Decoded(chars: Chars): Text {
    match chars
    case Closing => []
    case Char(piece, rest) => [PieceValue(piece)] + Decoded(rest)
  }

  function StringText(chars: Chars): Text {
    [QUOTE] + CharsText(chars)
  }

  // ---------------------------------------------------------------------
  // Numbers
  // ---------------------------------------------------------------------

  datatype Exponent = NoExponent | Exponent(letter: Unit, sign: Text, digits: Text)

  datatype Numeral = Numeral(minus: bool, whole: Text, fraction: Text, exponent: Exponent)

  predicate GoodWhole(whole: Text) {
    whole != [] && Digits(whole) && (whole[0] == 48 ==> |whole| == 1)
  }

  predicate GoodExponent(exponent: Exponent) {
    match exponent
    case NoExponent => true
    case Exponent(letter, sign, digits) =>
      (letter == 101 || letter == 69) && (sign == [] || sign == [PLUS] || sign == [MINUS]) && digits != [] && Digits(digits)
  }

  predicate GoodNumeral(n: Numeral) {
    GoodWhole(n.whole) && Digits(n.fraction) && GoodExponent(n.exponent)
  }

  function ExponentText(exponent: Exponent): Text {
    match exponent
    case NoExponent => []
    case Exponent(letter, sign, digits) => [letter] + (sign + digits)
  }

  /** No digits, no point. */
  function FractionText(fraction: Text): Text {
    if fraction == [] then [] else [POINT] + fraction
  }

  function NumeralText(n: Numeral): Text {
    (if n.minus then [MINUS] else []) + (n.whole + (FractionText(n.fraction) + ExponentText(n.exponent)))
  }

  // ---------------------------------------------------------------------
  // Values
  // ---------------------------------------------------------------------

  datatype Word = True | False | Null

  function WordText(word: Word): Text {
    match word
    case True => [116, 114, 117, 101]
    case False => [102, 97, 108, 115, 101]
    case Null => [110, 117, 108, 108]
  }

  datatype Value =
    | WordValue(word: Word)
    | NumberValue(numeral: Numeral)
    | StringValue(chars: Chars)
    | EmptyArray(blank: Text)
    | Array(first: Elements)
    | EmptyObject(blank: Text)
    | Object(members: Members)

  /** One or more array elements. */
  datatype Elements = Element(before: Text, value: Value, after: Text, more: MoreElements)

  datatype MoreElements = NoElement | AnotherElement(elements: Elements)

  /** One or more object members. */
  datatype Members = Member(before: Text, key: Chars, afterKey: Text, beforeValue: Text, value: Value, after: Text, more: MoreMembers)

  datatype MoreMembers = NoMember | AnotherMember(members: Members)

  function ValueText(value: Value): Text {
    match value
    case WordValue(word) => WordText(word)
    case NumberValue(numeral) => NumeralText(numeral)
    case StringValue(chars) => StringText(chars)
    case EmptyArray(blank) => [OPEN_BRACKET] + (blank + [CLOSE_BRACKET])
    case Array(first) => [OPEN_BRACKET] + ElementsText(first)
    case EmptyObject(blank) => [OPEN_BRACE] + (blank + [CLOSE_BRACE])
    case Object(members) => [OPEN_BRACE] + MembersText(members)
  }

  function ElementsText(elements: Elements): Text {
    elements.before + (ValueText(elements.value) + (elements.after + MoreElementsText(elements.more)))
  }

  function MoreElementsText(more: MoreElements): Text {
    match more
    case NoElement => [CLOSE_BRACKET]
    case AnotherElement(elements) => [COMMA] + ElementsText(elements)
  }

  function MembersText(m: Members): Text {
    m.before + (StringText(m.key) + (m.afterKey + ([COLON] +
      (m.beforeValue + (ValueText(m.value) + (m.after + MoreMembersText(m.more)))))))
  }

  function MoreMembersText(more: MoreMembers): Text {
    match more
    case NoMember => [CLOSE_BRACE]
    case AnotherMember(members) => [COMMA] + MembersText(members)
  }

  predicate GoodValue(value: Value) {
    match value
    case WordValue(_) => true
    case NumberValue(numeral) => GoodNumeral(numeral)
    case StringValue(chars) => GoodChars(chars)
    case EmptyArray(blank) => Blank(blank)
    case Array(first) => GoodElements(first)
    case EmptyObject(blank) => Blank(blank)
    case Object(members) => GoodMembers(members)
  }

  predicate GoodElements(elements: Elements) {
    && Blank(elements.before) && GoodValue(elements.value) && Blank(elements.after)
    && (elements.more.AnotherElement? ==> GoodElements(elements.more.elements))
  }

  predicate GoodMembers(m: Members) {
    && Blank(m.before) && GoodChars(m.key) && Blank(m.afterKey) && Blank(m.beforeValue)
    && GoodValue(m.value) && Blank(m.after)
    && (m.more.AnotherMember? ==> GoodMembers(m.more.members))
  }

  /** A value at this depth, and everything inside it, lies no deeper than the limit. */
  predicate Within(value: Value, depth: nat, limit: nat) {
    depth <= limit &&
    match value
    case Array(first) => ElementsWithin(first, depth + 1, limit)
    case Object(members) => MembersWithin(members, depth + 1, limit)
    case _ => true
  }

  predicate ElementsWithin(elements: Elements, depth: nat, limit: nat) {
    && Within(elements.value, depth, limit)
    && (elements.more.AnotherElement? ==> ElementsWithin(elements.more.elements, depth, limit))
  }

  predicate MembersWithin(m: Members, depth: nat, limit: nat) {
    && Within(m.value, depth, limit)
    && (m.more.AnotherMember? ==> MembersWithin(m.more.members, depth, limit))
  }

  /** The decoded names of an object's members, in order. */
  function MemberNames(m: Members): seq<Text> {
    [Decoded(m.key)] + if m.more.AnotherMember? then MemberNames(m.more.members) else []
  }

  /** No object, however deep, has two members with equal decoded names. */
  ghost predicate NamesDiffer(value: Value) {
    match value
    case Array(first) => ElementNamesDiffer(first)
    case Object(members) => Distinct(MemberNames(members)) && ValueNamesDiffer(members)
    case _ => true
  }

  ghost predicate ElementNamesDiffer(elements: Elements) {
    && NamesDiffer(elements.value)
    && (elements.more.AnotherElement? ==> ElementNamesDiffer(elements.more.elements))
  }

  ghost predicate ValueNamesDiffer(m: Members) {
    && NamesDiffer(m.value)
    && (m.more.AnotherMember? ==> ValueNamesDiffer(m.more.members))
  }

  /** The text is one JSON value between blanks, no deeper than the limit, without repeated names. */
  ghost predicate IsSafeJson(text: Text, limit: nat) {
    exists before: Text, value: Value, after: Text ::
      && Blank(before) && Blank(after) && GoodValue(value)
      && Within(value, 0, limit) && NamesDiffer(value)
      && text == before + (ValueText(value) + after)
  }

  // ---------------------------------------------------------------------
  // Texts inside a text
  // ---------------------------------------------------------------------

  predicate StartsAt(text: Text, i: nat, piece: Text) {
    i + |piece| <= |text| && text[i..i + |piece|] == piece
  }

  lemma StartsConcat(text: Text, i: nat, a: Text, b: Text)
    ensures StartsAt(text, i, a + b) <==> StartsAt(text, i, a) && StartsAt(text, i + |a|, b)
  {
    if StartsAt(text, i, a + b) {
      assert text[i..i + |a|] == text[i..i + |a + b|][..|a|];
      assert text[i + |a|..i + |a| + |b|] == text[i..i + |a + b|][|a|..];
    }
    if StartsAt(text, i, a) && StartsAt(text, i + |a|, b) {
      assert text[i..i + |a + b|] == text[i..i + |a|] + text[i + |a|..i + |a| + |b|];
    }
  }

  lemma StartsUnit(text: Text, i: nat, u: Unit)
    ensures StartsAt(text, i, [u]) <==> At(text, i) == u
  {
  }

  lemma StartsEach(text: Text, i: nat, piece: Text, k: nat)
    requires StartsAt(text, i, piece) && k < |piece|
    ensures At(text, i + k) == piece[k]
  {
    assert text[i..i + |piece|][k] == text[i + k];
  }

}
