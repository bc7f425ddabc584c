/**
 The scanner finds no fault exactly in the texts the grammar describes
 (packages/core/src/goal-plan-artifacts.ts:369-525).
 */
module JsonGrammar {
  import opened Foundations
  import opened JsonText
  import opened JsonScan
  import opened JsonLexemes

  // ---------------------------------------------------------------------
  // The table of tokens
  // ---------------------------------------------------------------------

  lemma SkipRead(text: Text, t: Tokens, i: nat) returns (blank: Text)
    requires Lexed(text, t) && i <= |text|
    ensures Blank(blank) && StartsAt(text, i, blank) && t.skip[i] == i + |blank| <= |text|
    ensures !IsBlank(At(text, t.skip[i]))
  {
    assert Look(i);
    BlankRead(text, i);
    blank := text[i..SkipBlank(text, i)];
  }

  lemma SkipWritten(text: Text, t: Tokens, i: nat, blank: Text)
    requires Lexed(text, t) && Blank(blank) && StartsAt(text, i, blank) && !IsBlank(At(text, i + |blank|))
    ensures i <= |text| && t.skip[i] == i + |blank|
  {
    assert Look(i);
    BlankWritten(text, i, blank);
  }

  lemma KeyRead(text: Text, t: Tokens, i: nat) returns (chars: Chars)
    requires Lexed(text, t) && i <= |text| && t.strings[i].Key?
    ensures GoodChars(chars) && StartsAt(text, i, StringText(chars))
    ensures t.strings[i] == Key(Decoded(chars), i + |StringText(chars)|)
  {
    assert Look(i);
    chars := StringRead(text, i);
  }

  lemma KeyWritten(text: Text, t: Tokens, i: nat, chars: Chars)
    requires Lexed(text, t) && GoodChars(chars) && StartsAt(text, i, StringText(chars))
    ensures i < |text| && At(text, i) == QUOTE && t.strings[i] == Key(Decoded(chars), i + |StringText(chars)|)
  {
    StringWritten(text, i, chars);
    assert Look(i);
  }

  lemma TokenRead(text: Text, t: Tokens, i: nat) returns (value: Value)
    requires Lexed(text, t) && i <= |text| && t.plains[i].Ok?
    ensures (value.WordValue? || value.NumberValue?) && GoodValue(value)
    ensures StartsAt(text, i, ValueText(value)) && t.plains[i] == Ok(i + |ValueText(value)|)
  {
    assert Look(i);
    value := PlainRead(text, i);
  }

  lemma TokenWritten(text: Text, t: Tokens, i: nat, value: Value)
    requires Lexed(text, t) && (value.WordValue? || value.NumberValue?) && GoodValue(value)
    requires StartsAt(text, i, ValueText(value)) && Follows(At(text, i + |ValueText(value)|))
    ensures i < |text| && t.plains[i] == Ok(i + |ValueText(value)|)
    ensures At(text, i) != OPEN_BRACE && At(text, i) != OPEN_BRACKET && At(text, i) != QUOTE && !IsBlank(At(text, i))
  {
    PlainWritten(text, i, value);
    assert Look(i);
  }

  // ---------------------------------------------------------------------
  // Members and elements in the text
  // ---------------------------------------------------------------------

  /** What follows a member name: blanks, a colon, blanks, the value, blanks, and the rest of the object. */
  function AfterName(m: Members): Text {
    m.afterKey + ([COLON] + (m.beforeValue + (ValueText(m.value) + (m.after + MoreMembersText(m.more)))))
  }

  function AfterColon(m: Members): Text {
    m.beforeValue + (ValueText(m.value) + (m.after + MoreMembersText(m.more)))
  }

  lemma MembersSplit(text: Text, i: nat, m: Members)
    ensures StartsAt(text, i, MembersText(m)) <==>
      && StartsAt(text, i, m.before)
      && StartsAt(text, i + |m.before|, StringText(m.key))
      && StartsAt(text, i + |m.before| + |StringText(m.key)|, AfterName(m))
    ensures |MembersText(m)| == |m.before| + |StringText(m.key)| + |AfterName(m)|
  {
    StartsConcat(text, i, m.before, StringText(m.key) + AfterName(m));
    StartsConcat(text, i + |m.before|, StringText(m.key), AfterName(m));
  }

  lemma NameSplit(text: Text, i: nat, m: Members)
    ensures StartsAt(text, i, AfterName(m)) <==>
      && StartsAt(text, i, m.afterKey) && At(text, i + |m.afterKey|) == COLON
      && StartsAt(text, i + |m.afterKey| + 1, AfterColon(m))
    ensures |AfterName(m)| == |m.afterKey| + 1 + |AfterColon(m)|
  {
    StartsConcat(text, i, m.afterKey, [COLON] + AfterColon(m));
    StartsConcat(text, i + |m.afterKey|, [COLON], AfterColon(m));
    StartsUnit(text, i + |m.afterKey|, COLON);
  }

  lemma ColonSplit(text: Text, i: nat, m: Members)
    ensures StartsAt(text, i, AfterColon(m)) <==>
      && StartsAt(text, i, m.beforeValue + ValueText(m.value))
      && StartsAt(text, i + |m.beforeValue + ValueText(m.value)|, m.after + MoreMembersText(m.more))
    ensures |AfterColon(m)| == |m.beforeValue + ValueText(m.value)| + |m.after + MoreMembersText(m.more)|
  {
    var tail := m.after + MoreMembersText(m.more);
    assert AfterColon(m) == (m.beforeValue + ValueText(m.value)) + tail;
    StartsConcat(text, i, m.beforeValue + ValueText(m.value), tail);
  }

  lemma ElementsSplit(text: Text, i: nat, e: Elements)
    ensures StartsAt(text, i, ElementsText(e)) <==>
      && StartsAt(text, i, e.before + ValueText(e.value))
      && StartsAt(text, i + |e.before + ValueText(e.value)|, e.after + MoreElementsText(e.more))
    ensures |ElementsText(e)| == |e.before + ValueText(e.value)| + |e.after + MoreElementsText(e.more)|
  {
    var tail := e.after + MoreElementsText(e.more);
    assert ElementsText(e) == (e.before + ValueText(e.value)) + tail;
    StartsConcat(text, i, e.before + ValueText(e.value), tail);
  }

  // ---------------------------------------------------------------------
  // Putting values together
  // ---------------------------------------------------------------------

  lemma EmptyThere(text: Text, i: nat, open: Unit, blank: Text, close: Unit)
    requires At(text, i) == open && StartsAt(text, i + 1, blank) && At(text, i + 1 + |blank|) == close
    ensures StartsAt(text, i, [open] + (blank + [close])) && |[open] + (blank + [close])| == |blank| + 2
  {
    StartsUnit(text, i, open);
    StartsUnit(text, i + 1 + |blank|, close);
    StartsConcat(text, i + 1, blank, [close]);
    StartsConcat(text, i, [open], blank + [close]);
  }

  /** A bracket or comma, blanks, and the rest. */
  lemma MarkThere(text: Text, i: nat, mark: Unit, blank: Text, rest: Text, all: Text)
    requires At(text, i) == mark && StartsAt(text, i + 1, blank) && StartsAt(text, i + 1 + |blank|, rest)
    requires all == [mark] + (blank + rest)
    ensures StartsAt(text, i, all) && |all| == 1 + |blank| + |rest|
  {
    StartsConcat(text, i + 1, blank, rest);
    StartsUnit(text, i, mark);
    StartsConcat(text, i, [mark], blank + rest);
  }

  /** Elements and members with more blanks in front. */
  function Led(e: Elements, blank: Text): Elements {
    e.(before := blank + e.before)
  }

  function LedMembers(m: Members, blank: Text): Members {
    m.(before := blank + m.before)
  }

  lemma LedText(e: Elements, blank: Text)
    ensures ElementsText(Led(e, blank)) == blank + ElementsText(e)
  {
    var rest := ValueText(e.value) + (e.after + MoreElementsText(e.more));
    assert (blank + e.before) + rest == blank + (e.before + rest);
  }

  lemma LedMembersText(m: Members, blank: Text)
    ensures MembersText(LedMembers(m, blank)) == blank + MembersText(m)
  {
    var rest := StringText(m.key) + AfterName(m);
    assert (blank + m.before) + rest == blank + (m.before + rest);
  }

  /** Good elements at a depth, with no repeated names inside. */
  ghost predicate FineElements(e: Elements, depth: nat, limit: nat) {
    GoodElements(e) && ElementsWithin(e, depth, limit) && ElementNamesDiffer(e)
  }

  ghost predicate FineMembers(m: Members, depth: nat, limit: nat, keys: set<Text>) {
    && GoodMembers(m) && MembersWithin(m, depth, limit) && ValueNamesDiffer(m)
    && Distinct(MemberNames(m)) && forall name <- MemberNames(m) :: name !in keys
  }

  ghost predicate FineValue(value: Value, depth: nat, limit: nat) {
    GoodValue(value) && Within(value, depth, limit) && NamesDiffer(value)
  }

  lemma LedFine(e: Elements, blank: Text, depth: nat, limit: nat)
    requires FineElements(e, depth, limit) && Blank(blank)
    ensures FineElements(Led(e, blank), depth, limit)
  {
  }

  lemma LedMembersFine(m: Members, blank: Text, depth: nat, limit: nat, keys: set<Text>)
    requires FineMembers(m, depth, limit, keys) && Blank(blank)
    ensures FineMembers(LedMembers(m, blank), depth, limit, keys)
  {
    assert MemberNames(LedMembers(m, blank)) == MemberNames(m);
  }

  ghost predicate FineMore(more: MoreElements, depth: nat, limit: nat) {
    more.AnotherElement? ==> FineElements(more.elements, depth, limit)
  }

  ghost predicate FineMoreMembers(more: MoreMembers, depth: nat, limit: nat, keys: set<Text>) {
    more.AnotherMember? ==> FineMembers(more.members, depth, limit, keys)
  }

  lemma ElementFine(before: Text, value: Value, after: Text, more: MoreElements, depth: nat, limit: nat)
    requires Blank(before) && FineValue(value, depth, limit) && Blank(after) && FineMore(more, depth, limit)
    ensures FineElements(Element(before, value, after, more), depth, limit)
  {
  }

  lemma MemberFine(m: Members, depth: nat, limit: nat, keys: set<Text>)
    requires Blank(m.before) && GoodChars(m.key) && Blank(m.afterKey) && Blank(m.beforeValue) && Blank(m.after)
    requires FineValue(m.value, depth, limit) && Decoded(m.key) !in keys
    requires FineMoreMembers(m.more, depth, limit, keys + {Decoded(m.key)})
    ensures FineMembers(m, depth, limit, keys)
  {
    if m.more.AnotherMember? {
      DistinctCons(Decoded(m.key), MemberNames(m.more.members));
    }
  }

  // ---------------------------------------------------------------------
  // Everything read is in the grammar
  // ---------------------------------------------------------------------

  ghost predicate ElementsThere(text: Text, i: nat, end: nat, e: Elements) {
    StartsAt(text, i, ElementsText(e)) && end == i + |ElementsText(e)|
  }

  ghost predicate MembersThere(text: Text, i: nat, end: nat, m: Members) {
    StartsAt(text, i, MembersText(m)) && end == i + |MembersText(m)|
  }

  ghost predicate ValueThere(text: Text, i: nat, end: nat, value: Value) {
    StartsAt(text, i, ValueText(value)) && end == i + |ValueText(value)|
  }

  /** A value with blanks in front. */
  ghost predicate LedValueThere(text: Text, i: nat, end: nat, before: Text, value: Value) {
    StartsAt(text, i, before + ValueText(value)) && end == i + |before + ValueText(value)|
  }

  /** What closes an array, or another element behind a comma. */
  ghost predicate MoreThere(text: Text, i: nat, end: nat, after: Text, more: MoreElements) {
    StartsAt(text, i, after + MoreElementsText(more)) && end == i + |after + MoreElementsText(more)|
  }

  ghost predicate MoreMembersThere(text: Text, i: nat, end: nat, after: Text, more: MoreMembers) {
    StartsAt(text, i, after + MoreMembersText(more)) && end == i + |after + MoreMembersText(more)|
  }

  lemma PutBefore(text: Text, start: nat, before: Text, value: Value, end: nat)
    requires StartsAt(text, start, before) && ValueThere(text, start + |before|, end, value)
    ensures LedValueThere(text, start, end, before, value)
  {
    StartsConcat(text, start, before, ValueText(value));
  }

  lemma ElementThere(text: Text, i: nat, valueEnd: nat, end: nat, e: Elements)
    requires LedValueThere(text, i, valueEnd, e.before, e.value) && MoreThere(text, valueEnd, end, e.after, e.more)
    ensures ElementsThere(text, i, end, e)
  {
    ElementsSplit(text, i, e);
  }

  lemma AfterColonThere(text: Text, start: nat, valueEnd: nat, end: nat, m: Members)
    requires LedValueThere(text, start, valueEnd, m.beforeValue, m.value)
    requires MoreMembersThere(text, valueEnd, end, m.after, m.more)
    ensures StartsAt(text, start, AfterColon(m)) && end == start + |AfterColon(m)|
  {
    ColonSplit(text, start, m);
  }

  lemma AfterNameThere(text: Text, keyEnd: nat, colon: nat, end: nat, m: Members)
    requires StartsAt(text, keyEnd, m.afterKey) && colon == keyEnd + |m.afterKey| && At(text, colon) == COLON
    requires StartsAt(text, colon + 1, AfterColon(m)) && end == colon + 1 + |AfterColon(m)|
    ensures StartsAt(text, keyEnd, AfterName(m)) && end == keyEnd + |AfterName(m)|
  {
    NameSplit(text, keyEnd, m);
  }

  lemma NameThere(text: Text, i: nat, keyEnd: nat, end: nat, m: Members)
    requires m.before == [] && StartsAt(text, i, StringText(m.key)) && keyEnd == i + |StringText(m.key)|
    requires StartsAt(text, keyEnd, AfterName(m)) && end == keyEnd + |AfterName(m)|
    ensures MembersThere(text, i, end, m)
  {
    MembersSplit(text, i, m);
  }

  lemma MemberThere(text: Text, i: nat, keyEnd: nat, colon: nat, valueEnd: nat, end: nat, m: Members)
    requires m.before == [] && StartsAt(text, i, StringText(m.key)) && keyEnd == i + |StringText(m.key)|
    requires StartsAt(text, keyEnd, m.afterKey) && colon == keyEnd + |m.afterKey| && At(text, colon) == COLON
    requires LedValueThere(text, colon + 1, valueEnd, m.beforeValue, m.value)
    requires MoreMembersThere(text, valueEnd, end, m.after, m.more)
    ensures MembersThere(text, i, end, m)
  {
    AfterColonThere(text, colon + 1, valueEnd, end, m);
    AfterNameThere(text, keyEnd, colon, end, m);
    NameThere(text, i, keyEnd, end, m);
  }

  lemma ArrayThere(text: Text, i: nat, blank: Text, e: Elements, end: nat)
    requires At(text, i) == OPEN_BRACKET && StartsAt(text, i + 1, blank) && ElementsThere(text, i + 1 + |blank|, end, e)
    ensures ValueThere(text, i, end, Array(Led(e, blank)))
  {
    LedText(e, blank);
    MarkThere(text, i, OPEN_BRACKET, blank, ElementsText(e), ValueText(Array(Led(e, blank))));
  }

  lemma ObjectThere(text: Text, i: nat, blank: Text, m: Members, end: nat)
    requires At(text, i) == OPEN_BRACE && StartsAt(text, i + 1, blank) && MembersThere(text, i + 1 + |blank|, end, m)
    ensures ValueThere(text, i, end, Object(LedMembers(m, blank)))
  {
    LedMembersText(m, blank);
    MarkThere(text, i, OPEN_BRACE, blank, MembersText(m), ValueText(Object(LedMembers(m, blank))));
  }

  lemma AnotherThere(text: Text, start: nat, after: Text, blank: Text, e: Elements, end: nat)
    requires StartsAt(text, start, after) && At(text, start + |after|) == COMMA
    requires StartsAt(text, start + |after| + 1, blank) && ElementsThere(text, start + |after| + 1 + |blank|, end, e)
    ensures MoreThere(text, start, end, after, AnotherElement(Led(e, blank)))
  {
    LedText(e, blank);
    var more := MoreElementsText(AnotherElement(Led(e, blank)));
    MarkThere(text, start + |after|, COMMA, blank, ElementsText(e), more);
    StartsConcat(text, start, after, more);
  }

  lemma AnotherMemberThere(text: Text, start: nat, after: Text, blank: Text, m: Members, end: nat)
    requires StartsAt(text, start, after) && At(text, start + |after|) == COMMA
    requires StartsAt(text, start + |after| + 1, blank) && MembersThere(text, start + |after| + 1 + |blank|, end, m)
    ensures MoreMembersThere(text, start, end, after, AnotherMember(LedMembers(m, blank)))
  {
    LedMembersText(m, blank);
    var more := MoreMembersText(AnotherMember(LedMembers(m, blank)));
    MarkThere(text, start + |after|, COMMA, blank, MembersText(m), more);
    StartsConcat(text, start, after, more);
  }

  lemma ClosedThere(text: Text, start: nat, after: Text, close: Unit)
    requires StartsAt(text, start, after) && At(text, start + |after|) == close
    ensures StartsAt(text, start, after + [close]) && |after + [close]| == |after| + 1
  {
    StartsUnit(text, start + |after|, close);
    StartsConcat(text, start, after, [close]);
  }

  lemma EmptyObjectThere(text: Text, i: nat, blank: Text, end: nat, depth: nat, limit: nat)
    requires At(text, i) == OPEN_BRACE && StartsAt(text, i + 1, blank) && Blank(blank) && depth <= limit
    requires At(text, i + 1 + |blank|) == CLOSE_BRACE && end == i + |blank| + 2
    ensures ValueThere(text, i, end, EmptyObject(blank)) && FineValue(EmptyObject(blank), depth, limit)
  {
    EmptyThere(text, i, OPEN_BRACE, blank, CLOSE_BRACE);
  }

  lemma EmptyArrayThere(text: Text, i: nat, blank: Text, end: nat, depth: nat, limit: nat)
    requires At(text, i) == OPEN_BRACKET && StartsAt(text, i + 1, blank) && Blank(blank) && depth <= limit
    requires At(text, i + 1 + |blank|) == CLOSE_BRACKET && end == i + |blank| + 2
    ensures ValueThere(text, i, end, EmptyArray(blank)) && FineValue(EmptyArray(blank), depth, limit)
  {
    EmptyThere(text, i, OPEN_BRACKET, blank, CLOSE_BRACKET);
  }

  lemma ObjectFine(m: Members, depth: nat, limit: nat)
    requires FineMembers(m, depth + 1, limit, {}) && depth <= limit
    ensures FineValue(Object(m), depth, limit)
  {
    hide MemberNames, MembersWithin, GoodMembers, ValueNamesDiffer;
  }

  lemma ArrayFine(e: Elements, depth: nat, limit: nat)
    requires FineElements(e, depth + 1, limit) && depth <= limit
    ensures FineValue(Array(e), depth, limit)
  {
    hide ElementsWithin, GoodElements, ElementNamesDiffer;
  }

  lemma NoMoreThere(text: Text, start: nat, after: Text, end: nat, depth: nat, limit: nat)
    requires StartsAt(text, start, after) && At(text, start + |after|) == CLOSE_BRACKET && end == start + |after| + 1
    ensures MoreThere(text, start, end, after, NoElement) && FineMore(NoElement, depth, limit)
  {
    ClosedThere(text, start, after, CLOSE_BRACKET);
  }

  lemma NoMoreMembersThere(text: Text, start: nat, after: Text, end: nat, depth: nat, limit: nat, keys: set<Text>)
    requires StartsAt(text, start, after) && At(text, start + |after|) == CLOSE_BRACE && end == start + |after| + 1
    ensures MoreMembersThere(text, start, end, after, NoMember) && FineMoreMembers(NoMember, depth, limit, keys)
  {
    ClosedThere(text, start, after, CLOSE_BRACE);
  }

  lemma {:induction false} ValueRead(text: Text, t: Tokens, start: nat, depth: nat, limit: nat)
    returns (before: Text, value: Value)
    requires Lexed(text, t) && Fits(t, |text|) && start <= |text| && ReadValue(text, t, start, depth, limit).Ok?
    ensures LedValueThere(text, start, ReadValue(text, t, start, depth, limit).end, before, value)
    ensures Blank(before) && FineValue(value, depth, limit)
    decreases |text| - start, 1
  {
    before := SkipRead(text, t, start);
    value := BareValueRead(text, t, t.skip[start], depth, limit);
    PutBefore(text, start, before, value, ReadValue(text, t, start, depth, limit).end);
  }

  /** What `ReadValue` does behind the blanks. */
  function BareEnd(text: Text, t: Tokens, i: nat, depth: nat, limit: nat): Read
    requires Fits(t, |text|) && i <= |text|
  {
    if At(text, i) == OPEN_BRACE then
      if At(text, t.skip[i + 1]) == CLOSE_BRACE then Ok(t.skip[i + 1] + 1)
      else ReadMembers(text, t, t.skip[i + 1], depth, limit, {})
    else if At(text, i) == OPEN_BRACKET then
      if At(text, t.skip[i + 1]) == CLOSE_BRACKET then Ok(t.skip[i + 1] + 1)
      else ReadElements(text, t, t.skip[i + 1], depth, limit)
    else if At(text, i) == QUOTE then
      if t.strings[i].Key? then Ok(t.strings[i].end) else Bad(t.strings[i].fault)
    else t.plains[i]
  }

  lemma {:induction false} BareValueRead(text: Text, t: Tokens, i: nat, depth: nat, limit: nat) returns (value: Value)
    requires Lexed(text, t) && Fits(t, |text|) && i <= |text| && depth <= limit && BareEnd(text, t, i, depth, limit).Ok?
    ensures ValueThere(text, i, BareEnd(text, t, i, depth, limit).end, value) && FineValue(value, depth, limit)
    decreases |text| - i, 0
  {
    if At(text, i) == OPEN_BRACE {
      value := ObjectRead(text, t, i, depth, limit, BareEnd(text, t, i, depth, limit).end);
    } else if At(text, i) == OPEN_BRACKET {
      value := ArrayRead(text, t, i, depth, limit, BareEnd(text, t, i, depth, limit).end);
    } else if At(text, i) == QUOTE {
      var chars := KeyRead(text, t, i);
      value := StringValue(chars);
    } else {
      value := TokenRead(text, t, i);
    }
  }

  lemma {:induction false} ObjectRead(text: Text, t: Tokens, i: nat, depth: nat, limit: nat, end: nat) returns (value: Value)
    requires Lexed(text, t) && Fits(t, |text|) && i < |text| && At(text, i) == OPEN_BRACE && depth <= limit
    requires if At(text, t.skip[i + 1]) == CLOSE_BRACE then end == t.skip[i + 1] + 1
             else ReadMembers(text, t, t.skip[i + 1], depth, limit, {}) == Ok(end)
    ensures ValueThere(text, i, end, value) && FineValue(value, depth, limit)
    decreases |text| - i - 1, 4
  {
    hide MembersThere, ElementsThere, ValueThere, LedValueThere, MoreThere, MoreMembersThere, FineElements, FineMembers, FineValue, ReadMembers, ReadElements, ReadValue, StartsAt;
    var blank := SkipRead(text, t, i + 1);
    if At(text, t.skip[i + 1]) == CLOSE_BRACE {
      value := EmptyObject(blank);
      EmptyObjectThere(text, i, blank, end, depth, limit);
    } else {
      var m := MembersRead(text, t, t.skip[i + 1], depth, limit, {}, end);
      ObjectThere(text, i, blank, m, end);
      LedMembersFine(m, blank, depth + 1, limit, {});
      ObjectFine(LedMembers(m, blank), depth, limit);
      value := Object(LedMembers(m, blank));
    }
  }

  lemma {:induction false} ArrayRead(text: Text, t: Tokens, i: nat, depth: nat, limit: nat, end: nat) returns (value: Value)
    requires Lexed(text, t) && Fits(t, |text|) && i < |text| && At(text, i) == OPEN_BRACKET && depth <= limit
    requires if At(text, t.skip[i + 1]) == CLOSE_BRACKET then end == t.skip[i + 1] + 1
             else ReadElements(text, t, t.skip[i + 1], depth, limit) == Ok(end)
    ensures ValueThere(text, i, end, value) && FineValue(value, depth, limit)
    decreases |text| - i - 1, 4
  {
    var blank := SkipRead(text, t, i + 1);
    if At(text, t.skip[i + 1]) == CLOSE_BRACKET {
      value := EmptyArray(blank);
      EmptyArrayThere(text, i, blank, end, depth, limit);
    } else {
      var e := ElementsRead(text, t, t.skip[i + 1], depth, limit, end);
      ArrayThere(text, i, blank, e, end);
      LedFine(e, blank, depth + 1, limit);
      ArrayFine(Led(e, blank), depth, limit);
      value := Array(Led(e, blank));
    }
  }

  /** The rest of an object behind a member's value. */
  lemma {:induction false} MoreMembersRead(text: Text, t: Tokens, valueEnd: nat, depth: nat, limit: nat, keys: set<Text>, end: nat)
    returns (after: Text, more: MoreMembers)
    requires Lexed(text, t) && Fits(t, |text|) && valueEnd <= |text|
    requires var at := t.skip[valueEnd];
      if At(text, at) == CLOSE_BRACE then end == at + 1
      else At(text, at) == COMMA && ReadMembers(text, t, t.skip[at + 1], depth, limit, keys) == Ok(end)
    ensures Blank(after) && MoreMembersThere(text, valueEnd, end, after, more) && FineMoreMembers(more, depth + 1, limit, keys)
    decreases |text| - valueEnd, 2
  {
    hide MembersThere, ElementsThere, ValueThere, LedValueThere, MoreThere, MoreMembersThere, FineElements, FineMembers, FineValue, ReadMembers, ReadElements, ReadValue, StartsAt;
    after := SkipRead(text, t, valueEnd);
    var at := t.skip[valueEnd];
    if At(text, at) == CLOSE_BRACE {
      more := NoMember;
      NoMoreMembersThere(text, valueEnd, after, end, depth + 1, limit, keys);
    } else {
      var blank := SkipRead(text, t, at + 1);
      var m := MembersRead(text, t, t.skip[at + 1], depth, limit, keys, end);
      AnotherMemberThere(text, valueEnd, after, blank, m, end);
      LedMembersFine(m, blank, depth + 1, limit, keys);
      more := AnotherMember(LedMembers(m, blank));
    }
  }

  /** The parts of one turn of `ReadMembers`. */
  lemma MembersTurn(text: Text, t: Tokens, i: nat, depth: nat, limit: nat, keys: set<Text>, end: nat)
    requires Fits(t, |text|) && i <= |text| && ReadMembers(text, t, i, depth, limit, keys) == Ok(end)
    ensures t.strings[i].Key? && t.strings[i].value !in keys
    ensures var colon := t.skip[t.strings[i].end];
      && At(text, colon) == COLON && colon < |text|
      && ReadValue(text, t, colon + 1, depth + 1, limit).Ok?
      && var valueEnd := ReadValue(text, t, colon + 1, depth + 1, limit).end;
         var at := t.skip[valueEnd];
         if At(text, at) == CLOSE_BRACE then end == at + 1
         else At(text, at) == COMMA &&
              ReadMembers(text, t, t.skip[at + 1], depth, limit, keys + {t.strings[i].value}) == Ok(end)
  {
  }

  lemma {:induction false} MembersRead(text: Text, t: Tokens, i: nat, depth: nat, limit: nat, keys: set<Text>, end: nat)
    returns (m: Members)
    requires Lexed(text, t) && Fits(t, |text|) && i <= |text| && ReadMembers(text, t, i, depth, limit, keys) == Ok(end)
    ensures MembersThere(text, i, end, m) && FineMembers(m, depth + 1, limit, keys)
    decreases |text| - i, 3
  {
    hide MembersThere, ElementsThere, ValueThere, LedValueThere, MoreThere, MoreMembersThere, FineElements, FineMembers, FineValue, ReadMembers, ReadElements, ReadValue, StartsAt;
    MembersTurn(text, t, i, depth, limit, keys, end);
    var key := KeyRead(text, t, i);
    var afterKey := SkipRead(text, t, t.strings[i].end);
    var colon := t.skip[t.strings[i].end];
    var beforeValue, value := ValueRead(text, t, colon + 1, depth + 1, limit);
    var valueEnd := ReadValue(text, t, colon + 1, depth + 1, limit).end;
    var after, more := MoreMembersRead(text, t, valueEnd, depth, limit, keys + {Decoded(key)}, end);
    m := Member([], key, afterKey, beforeValue, value, after, more);
    MemberThere(text, i, t.strings[i].end, colon, valueEnd, end, m);
    MemberFine(m, depth + 1, limit, keys);
  }

  lemma {:induction false} MoreElementsRead(text: Text, t: Tokens, valueEnd: nat, depth: nat, limit: nat, end: nat)
    returns (after: Text, more: MoreElements)
    requires Lexed(text, t) && Fits(t, |text|) && valueEnd <= |text|
    requires var at := t.skip[valueEnd];
      if At(text, at) == CLOSE_BRACKET then end == at + 1
      else At(text, at) == COMMA && ReadElements(text, t, t.skip[at + 1], depth, limit) == Ok(end)
    ensures Blank(after) && MoreThere(text, valueEnd, end, after, more) && FineMore(more, depth + 1, limit)
    decreases |text| - valueEnd, 2
  {
    hide MembersThere, ElementsThere, ValueThere, LedValueThere, MoreThere, MoreMembersThere, FineElements, FineMembers, FineValue, ReadMembers, ReadElements, ReadValue, StartsAt;
    after := SkipRead(text, t, valueEnd);
    var at := t.skip[valueEnd];
    if At(text, at) == CLOSE_BRACKET {
      more := NoElement;
      NoMoreThere(text, valueEnd, after, end, depth + 1, limit);
    } else {
      var blank := SkipRead(text, t, at + 1);
      var e := ElementsRead(text, t, t.skip[at + 1], depth, limit, end);
      AnotherThere(text, valueEnd, after, blank, e, end);
      LedFine(e, blank, depth + 1, limit);
      more := AnotherElement(Led(e, blank));
    }
  }

  /** The parts of one turn of `ReadElements`. */
  lemma ElementsTurn(text: Text, t: Tokens, i: nat, depth: nat, limit: nat, end: nat)
    requires Fits(t, |text|) && i <= |text| && ReadElements(text, t, i, depth, limit) == Ok(end)
    ensures ReadValue(text, t, i, depth + 1, limit).Ok?
    ensures var at := t.skip[ReadValue(text, t, i, depth + 1, limit).end];
      if At(text, at) == CLOSE_BRACKET then end == at + 1
      else At(text, at) == COMMA && ReadElements(text, t, t.skip[at + 1], depth, limit) == Ok(end)
  {
  }

  lemma {:induction false} ElementsRead(text: Text, t: Tokens, i: nat, depth: nat, limit: nat, end: nat) returns (e: Elements)
    requires Lexed(text, t) && Fits(t, |text|) && i <= |text| && ReadElements(text, t, i, depth, limit) == Ok(end)
    ensures ElementsThere(text, i, end, e) && FineElements(e, depth + 1, limit)
    decreases |text| - i, 3
  {
    hide MembersThere, ElementsThere, ValueThere, LedValueThere, MoreThere, MoreMembersThere, FineElements, FineMembers, FineValue, ReadMembers, ReadElements, ReadValue, StartsAt;
    ElementsTurn(text, t, i, depth, limit, end);
    var before, value := ValueRead(text, t, i, depth + 1, limit);
    var valueEnd := ReadValue(text, t, i, depth + 1, limit).end;
    var after, more := MoreElementsRead(text, t, valueEnd, depth, limit, end);
    e := Element(before, value, after, more);
    ElementThere(text, i, valueEnd, end, e);
    ElementFine(before, value, after, more, depth + 1, limit);
  }

  // ---------------------------------------------------------------------
  // Everything in the grammar is read
  // ---------------------------------------------------------------------

  /** How the text of a value starts, and that it is not blank. */
  lemma ValueStarts(text: Text, t: Tokens, i: nat, end: nat, value: Value)
    requires Lexed(text, t) && GoodValue(value) && ValueThere(text, i, end, value) && Follows(At(text, end))
    ensures i < |text| && !IsBlank(At(text, i))
    ensures At(text, i) == OPEN_BRACE <==> value.EmptyObject? || value.Object?
    ensures At(text, i) == OPEN_BRACKET <==> value.EmptyArray? || value.Array?
    ensures At(text, i) == QUOTE <==> value.StringValue?
  {
    match value
    case WordValue(_) => TokenWritten(text, t, i, value);
    case NumberValue(_) => TokenWritten(text, t, i, value);
    case StringValue(chars) => KeyWritten(text, t, i, chars);
    case EmptyArray(blank) => MarkStarts(text, i, OPEN_BRACKET, blank + [CLOSE_BRACKET]);
    case Array(first) => MarkStarts(text, i, OPEN_BRACKET, ElementsText(first));
    case EmptyObject(blank) => MarkStarts(text, i, OPEN_BRACE, blank + [CLOSE_BRACE]);
    case Object(members) => MarkStarts(text, i, OPEN_BRACE, MembersText(members));
  }

  lemma MarkStarts(text: Text, i: nat, mark: Unit, rest: Text)
    requires StartsAt(text, i, [mark] + rest)
    ensures At(text, i) == mark && StartsAt(text, i + 1, rest)
  {
    StartsConcat(text, i, [mark], rest);
    StartsUnit(text, i, mark);
  }

  lemma ClosedStarts(text: Text, start: nat, after: Text, close: Unit)
    requires StartsAt(text, start, after + [close])
    ensures StartsAt(text, start, after) && At(text, start + |after|) == close && |after + [close]| == |after| + 1
  {
    StartsConcat(text, start, after, [close]);
    StartsUnit(text, start + |after|, close);
  }

  /** Blanks and a value. */
  lemma LedSplit(text: Text, start: nat, end: nat, before: Text, value: Value)
    requires LedValueThere(text, start, end, before, value)
    ensures StartsAt(text, start, before) && ValueThere(text, start + |before|, end, value)
  {
    StartsConcat(text, start, before, ValueText(value));
  }

  lemma {:induction false} ValueWritten(text: Text, t: Tokens, start: nat, end: nat, before: Text, value: Value, depth: nat, limit: nat)
    requires Lexed(text, t) && Fits(t, |text|) && Blank(before) && FineValue(value, depth, limit)
    requires LedValueThere(text, start, end, before, value) && Follows(At(text, end))
    ensures start <= |text| && ReadValue(text, t, start, depth, limit) == Ok(end)
    decreases value, 1
  {
    LedSplit(text, start, end, before, value);
    ValueStarts(text, t, start + |before|, end, value);
    SkipWritten(text, t, start, before);
    BareValueWritten(text, t, start + |before|, end, value, depth, limit);
  }

  lemma {:induction false} BareValueWritten(text: Text, t: Tokens, i: nat, end: nat, value: Value, depth: nat, limit: nat)
    requires Lexed(text, t) && Fits(t, |text|) && FineValue(value, depth, limit)
    requires ValueThere(text, i, end, value) && Follows(At(text, end))
    ensures i <= |text| && BareEnd(text, t, i, depth, limit) == Ok(end)
    decreases value, 0
  {
    ValueStarts(text, t, i, end, value);
    match value
    case WordValue(_) => TokenWritten(text, t, i, value);
    case NumberValue(_) => TokenWritten(text, t, i, value);
    case StringValue(chars) => KeyWritten(text, t, i, chars);
    case EmptyArray(blank) => EmptyWritten(text, t, i, OPEN_BRACKET, blank, CLOSE_BRACKET);
    case EmptyObject(blank) => EmptyWritten(text, t, i, OPEN_BRACE, blank, CLOSE_BRACE);
    case Array(first) => ArrayWritten(text, t, i, end, first, depth, limit);
    case Object(members) => ObjectWritten(text, t, i, end, members, depth, limit);
  }

  lemma EmptyWritten(text: Text, t: Tokens, i: nat, open: Unit, blank: Text, close: Unit)
    requires Lexed(text, t) && Blank(blank) && StartsAt(text, i, [open] + (blank + [close])) && !IsBlank(close)
    ensures i < |text| && At(text, t.skip[i + 1]) == close && t.skip[i + 1] + 1 == i + |[open] + (blank + [close])|
  {
    MarkStarts(text, i, open, blank + [close]);
    ClosedStarts(text, i + 1, blank, close);
    SkipWritten(text, t, i + 1, blank);
  }

  /** The first blanks of elements taken off. */
  function Bare(e: Elements): Elements {
    e.(before := [])
  }

  lemma BareSplit(text: Text, i: nat, e: Elements)
    requires StartsAt(text, i, ElementsText(e))
    ensures StartsAt(text, i, e.before) && StartsAt(text, i + |e.before|, ElementsText(Bare(e)))
    ensures |ElementsText(e)| == |e.before| + |ElementsText(Bare(e))|
  {
    var rest := ValueText(e.value) + (e.after + MoreElementsText(e.more));
    StartsConcat(text, i, e.before, rest);
    assert [] + rest == rest;
  }

  /** What follows an element's value may follow any value. */
  lemma MoreFollows(text: Text, start: nat, end: nat, after: Text, more: MoreElements)
    requires Blank(after) && MoreThere(text, start, end, after, more)
    ensures StartsAt(text, start, after) && StartsAt(text, start + |after|, MoreElementsText(more))
    ensures end == start + |after| + |MoreElementsText(more)|
    ensures Follows(At(text, start)) && !IsBlank(At(text, start + |after|))
    ensures At(text, start + |after|) == if more.NoElement? then CLOSE_BRACKET else COMMA
  {
    StartsConcat(text, start, after, MoreElementsText(more));
    StartsEach(text, start + |after|, MoreElementsText(more), 0);
    if after != [] {
      StartsEach(text, start, after, 0);
    }
  }

  lemma MoreMembersFollow(text: Text, start: nat, end: nat, after: Text, more: MoreMembers)
    requires Blank(after) && MoreMembersThere(text, start, end, after, more)
    ensures StartsAt(text, start, after) && StartsAt(text, start + |after|, MoreMembersText(more))
    ensures end == start + |after| + |MoreMembersText(more)|
    ensures Follows(At(text, start)) && !IsBlank(At(text, start + |after|))
    ensures At(text, start + |after|) == if more.NoMember? then CLOSE_BRACE else COMMA
  {
    StartsConcat(text, start, after, MoreMembersText(more));
    StartsEach(text, start + |after|, MoreMembersText(more), 0);
    if after != [] {
      StartsEach(text, start, after, 0);
    }
  }

  lemma {:induction false} ArrayWritten(text: Text, t: Tokens, i: nat, end: nat, e: Elements, depth: nat, limit: nat)
    requires Lexed(text, t) && Fits(t, |text|) && FineElements(e, depth + 1, limit)
    requires ValueThere(text, i, end, Array(e))
    ensures i < |text| && At(text, t.skip[i + 1]) != CLOSE_BRACKET
    ensures ReadElements(text, t, t.skip[i + 1], depth, limit) == Ok(end)
    decreases e, 2
  {
    MarkStarts(text, i, OPEN_BRACKET, ElementsText(e));
    LedElementsWritten(text, t, i + 1, end, e, depth, limit);
  }

  /** Blanks, and elements behind them. */
  lemma {:induction false} LedElementsWritten(text: Text, t: Tokens, i: nat, end: nat, e: Elements, depth: nat, limit: nat)
    requires Lexed(text, t) && Fits(t, |text|) && FineElements(e, depth + 1, limit) && ElementsThere(text, i, end, e)
    ensures i <= |text| && t.skip[i] < |text| && At(text, t.skip[i]) != CLOSE_BRACKET
    ensures ReadElements(text, t, t.skip[i], depth, limit) == Ok(end)
    decreases e, 1
  {
    hide ReadMembers, ReadElements, ReadValue, StartsAt;
    BareSplit(text, i, e);
    ElementsSplit(text, i + |e.before|, Bare(e));
    assert [] + ValueText(e.value) == ValueText(e.value);
    var start := i + |e.before|;
    var valueEnd := start + |ValueText(e.value)|;
    MoreFollows(text, valueEnd, end, e.after, e.more);
    ValueStarts(text, t, start, valueEnd, e.value);
    SkipWritten(text, t, i, e.before);
    ElementsWritten(text, t, start, valueEnd, end, e, depth, limit);
    NotClosing(text, t, start, valueEnd, e.value);
  }

  lemma NotClosing(text: Text, t: Tokens, i: nat, end: nat, value: Value)
    requires Lexed(text, t) && GoodValue(value) && ValueThere(text, i, end, value) && Follows(At(text, end))
    ensures At(text, i) != CLOSE_BRACKET && At(text, i) != CLOSE_BRACE
  {
    ValueStarts(text, t, i, end, value);
    if value.WordValue? {
      WordWritten(text, i, value.word);
    } else if value.NumberValue? {
      NumberWritten(text, i, value.numeral);
    }
  }

  lemma ElementsStep(text: Text, t: Tokens, i: nat, depth: nat, limit: nat, valueEnd: nat, end: nat)
    requires Fits(t, |text|) && i < |text| && valueEnd <= |text| && ReadValue(text, t, i, depth + 1, limit) == Ok(valueEnd)
    requires var at := t.skip[valueEnd];
      if At(text, at) == CLOSE_BRACKET then end == at + 1
      else At(text, at) == COMMA && ReadElements(text, t, t.skip[at + 1], depth, limit) == Ok(end)
    ensures ReadElements(text, t, i, depth, limit) == Ok(end)
  {
  }

  lemma {:induction false} ElementsWritten(text: Text, t: Tokens, i: nat, valueEnd: nat, end: nat, e: Elements, depth: nat, limit: nat)
    requires Lexed(text, t) && Fits(t, |text|) && FineElements(e, depth + 1, limit)
    requires ValueThere(text, i, valueEnd, e.value) && MoreThere(text, valueEnd, end, e.after, e.more)
    requires i < |text|
    ensures ReadElements(text, t, i, depth, limit) == Ok(end)
    decreases e, 0
  {
    hide ReadMembers, ReadElements, ReadValue, StartsAt;
    MoreFollows(text, valueEnd, end, e.after, e.more);
    assert [] + ValueText(e.value) == ValueText(e.value);
    ValueWritten(text, t, i, valueEnd, [], e.value, depth + 1, limit);
    SkipWritten(text, t, valueEnd, e.after);
    if e.more.AnotherElement? {
      MarkStarts(text, t.skip[valueEnd], COMMA, ElementsText(e.more.elements));
      LedElementsWritten(text, t, t.skip[valueEnd] + 1, end, e.more.elements, depth, limit);
    }
    ElementsStep(text, t, i, depth, limit, valueEnd, end);
  }

  lemma {:induction false} ObjectWritten(text: Text, t: Tokens, i: nat, end: nat, m: Members, depth: nat, limit: nat)
    requires Lexed(text, t) && Fits(t, |text|) && FineMembers(m, depth + 1, limit, {})
    requires ValueThere(text, i, end, Object(m))
    ensures i < |text| && At(text, t.skip[i + 1]) != CLOSE_BRACE
    ensures ReadMembers(text, t, t.skip[i + 1], depth, limit, {}) == Ok(end)
    decreases m, 3
  {
    MarkStarts(text, i, OPEN_BRACE, MembersText(m));
    LedMembersWritten(text, t, i + 1, end, m, depth, limit, {});
  }

  lemma {:induction false} LedMembersWritten(text: Text, t: Tokens, i: nat, end: nat, m: Members, depth: nat, limit: nat, keys: set<Text>)
    requires Lexed(text, t) && Fits(t, |text|) && FineMembers(m, depth + 1, limit, keys) && MembersThere(text, i, end, m)
    ensures i <= |text| && t.skip[i] < |text| && At(text, t.skip[i]) != CLOSE_BRACE
    ensures ReadMembers(text, t, t.skip[i], depth, limit, keys) == Ok(end)
    decreases m, 2
  {
    hide ReadMembers, ReadElements, ReadValue, StartsAt;
    MembersSplit(text, i, m);
    var start := i + |m.before|;
    KeyWritten(text, t, start, m.key);
    SkipWritten(text, t, i, m.before);
    MembersWritten(text, t, start, end, m, depth, limit, keys);
  }

  lemma MembersStep(text: Text, t: Tokens, i: nat, depth: nat, limit: nat, keys: set<Text>, name: Text, keyEnd: nat,
                    valueEnd: nat, end: nat)
    requires Fits(t, |text|) && i < |text| && t.strings[i] == Key(name, keyEnd) && name !in keys
    requires At(text, t.skip[keyEnd]) == COLON && valueEnd <= |text|
    requires ReadValue(text, t, t.skip[keyEnd] + 1, depth + 1, limit) == Ok(valueEnd)
    requires var at := t.skip[valueEnd];
      if At(text, at) == CLOSE_BRACE then end == at + 1
      else At(text, at) == COMMA && ReadMembers(text, t, t.skip[at + 1], depth, limit, keys + {name}) == Ok(end)
    ensures ReadMembers(text, t, i, depth, limit, keys) == Ok(end)
  {
  }

  /** A member's name, its colon, and where its value lies. */
  lemma NameWritten(text: Text, t: Tokens, i: nat, m: Members)
    requires Lexed(text, t) && Blank(m.afterKey) && GoodChars(m.key)
    requires StartsAt(text, i, StringText(m.key)) && StartsAt(text, i + |StringText(m.key)|, AfterName(m))
    ensures i < |text| && t.strings[i] == Key(Decoded(m.key), i + |StringText(m.key)|)
    ensures var keyEnd := i + |StringText(m.key)|;
      && keyEnd <= |text| && t.skip[keyEnd] == keyEnd + |m.afterKey| && At(text, t.skip[keyEnd]) == COLON
      && StartsAt(text, keyEnd + |m.afterKey| + 1, AfterColon(m))
      && |AfterName(m)| == |m.afterKey| + 1 + |AfterColon(m)|
  {
    var keyEnd := i + |StringText(m.key)|;
    NameSplit(text, keyEnd, m);
    KeyWritten(text, t, i, m.key);
    SkipWritten(text, t, keyEnd, m.afterKey);
  }

  lemma FineRest(m: Members, depth: nat, limit: nat, keys: set<Text>)
    requires FineMembers(m, depth, limit, keys)
    ensures Decoded(m.key) !in keys && FineValue(m.value, depth, limit) && GoodChars(m.key)
    ensures Blank(m.afterKey) && Blank(m.beforeValue) && Blank(m.after)
    ensures FineMoreMembers(m.more, depth, limit, keys + {Decoded(m.key)})
  {
    assert MemberNames(m)[0] == Decoded(m.key);
    if m.more.AnotherMember? {
      var names, rest := MemberNames(m), MemberNames(m.more.members);
      assert names[1..] == rest;
      forall name | name in rest ensures name !in keys + {Decoded(m.key)} {
        assert name in names[1..];
      }
      forall j, k | 0 <= j < k < |rest| ensures rest[j] != rest[k] {
        assert rest[j] == names[j + 1] && rest[k] == names[k + 1];
      }
    }
  }

  lemma {:induction false} MemberValueWritten(text: Text, t: Tokens, start: nat, end: nat, m: Members, depth: nat, limit: nat)
    returns (valueEnd: nat)
    requires Lexed(text, t) && Fits(t, |text|) && FineValue(m.value, depth, limit)
    requires Blank(m.beforeValue) && Blank(m.after)
    requires StartsAt(text, start, AfterColon(m)) && end == start + |AfterColon(m)|
    ensures start <= |text| && valueEnd <= |text| && ReadValue(text, t, start, depth, limit) == Ok(valueEnd)
    ensures var at := t.skip[valueEnd];
      && at < |text| && At(text, at) == (if m.more.NoMember? then CLOSE_BRACE else COMMA)
      && StartsAt(text, at, MoreMembersText(m.more)) && end == at + |MoreMembersText(m.more)|
    decreases m, 0
  {
    hide ReadMembers, ReadElements, ReadValue, StartsAt;
    ColonSplit(text, start, m);
    valueEnd := start + |m.beforeValue + ValueText(m.value)|;
    MoreMembersFollow(text, valueEnd, end, m.after, m.more);
    ValueWritten(text, t, start, valueEnd, m.beforeValue, m.value, depth, limit);
    SkipWritten(text, t, valueEnd, m.after);
  }

  lemma {:induction false} MembersWritten(text: Text, t: Tokens, i: nat, end: nat, m: Members, depth: nat, limit: nat, keys: set<Text>)
    requires Lexed(text, t) && Fits(t, |text|) && FineMembers(m, depth + 1, limit, keys)
    requires StartsAt(text, i, StringText(m.key)) && StartsAt(text, i + |StringText(m.key)|, AfterName(m))
    requires end == i + |StringText(m.key)| + |AfterName(m)| && i < |text|
    ensures ReadMembers(text, t, i, depth, limit, keys) == Ok(end)
    decreases m, 1
  {
    hide ReadMembers, ReadElements, ReadValue, StartsAt, FineMembers, FineValue, AfterName, AfterColon, StringText, MembersText;
    FineRest(m, depth + 1, limit, keys);
    NameWritten(text, t, i, m);
    var keyEnd := i + |StringText(m.key)|;
    var valueEnd := MemberValueWritten(text, t, t.skip[keyEnd] + 1, end, m, depth + 1, limit);
    if m.more.AnotherMember? {
      MarkStarts(text, t.skip[valueEnd], COMMA, MembersText(m.more.members));
      LedMembersWritten(text, t, t.skip[valueEnd] + 1, end, m.more.members, depth, limit, keys + {Decoded(m.key)});
    }
    MembersStep(text, t, i, depth, limit, keys, Decoded(m.key), keyEnd, valueEnd, end);
  }

  // ---------------------------------------------------------------------
  // The scanner and the grammar agree
  // ---------------------------------------------------------------------

  lemma ScanSound(text: Text, limit: nat)
    requires Scan(text, limit).None?
    ensures IsSafeJson(text, limit)
  {
    hide StartsAt, ReadValue;
    var t := TokensOf(text);
    TextIsLexed(text);
    var first := SkipRead(text, t, 0);
    var second, value := ValueRead(text, t, t.skip[0], 0, limit);
    var end := ReadValue(text, t, t.skip[0], 0, limit).end;
    var after := SkipRead(text, t, end);
    LedSplit(text, t.skip[0], end, second, value);
    TextIsWhole(text, first, second, ValueText(value), after);
  }

  lemma TextIsWhole(text: Text, first: Text, second: Text, value: Text, after: Text)
    requires StartsAt(text, 0, first) && StartsAt(text, |first|, second)
    requires StartsAt(text, |first| + |second|, value)
    requires StartsAt(text, |first| + |second| + |value|, after) && |first| + |second| + |value| + |after| == |text|
    ensures text == (first + second) + (value + after)
  {
    StartsConcat(text, 0, first, second);
    StartsConcat(text, |first + second|, value, after);
    StartsConcat(text, 0, first + second, value + after);
    assert text[0..|text|] == text;
  }

  lemma WholeText(text: Text, before: Text, value: Text, after: Text)
    requires text == before + (value + after)
    ensures StartsAt(text, 0, before) && StartsAt(text, |before|, value) && StartsAt(text, |before| + |value|, after)
    ensures |before| + |value| + |after| == |text|
  {
    assert text[0..|text|] == text;
    StartsConcat(text, 0, before, value + after);
    StartsConcat(text, |before|, value, after);
  }

  lemma ReadsWhole(text: Text, t: Tokens, start: nat, end: nat, value: Value, limit: nat)
    requires Lexed(text, t) && Fits(t, |text|) && FineValue(value, 0, limit)
    requires ValueThere(text, start, end, value) && Follows(At(text, end))
    ensures start < |text| && !IsBlank(At(text, start)) && ReadValue(text, t, start, 0, limit) == Ok(end)
  {
    ValueStarts(text, t, start, end, value);
    assert [] + ValueText(value) == ValueText(value);
    ValueWritten(text, t, start, end, [], value, 0, limit);
  }

  lemma ScanComplete(text: Text, limit: nat, before: Text, value: Value, after: Text)
    requires Blank(before) && Blank(after) && FineValue(value, 0, limit)
    requires text == before + (ValueText(value) + after)
    ensures Scan(text, limit).None?
  {
    hide StartsAt, ReadValue, FineValue, ValueText;
    var t := TokensOf(text);
    var end := |before| + |ValueText(value)|;
    TextIsLexed(text);
    WholeText(text, before, ValueText(value), after);
    AfterFollows(text, end, after);
    ReadsWhole(text, t, |before|, end, value, limit);
    SkipWritten(text, t, 0, before);
    SkipWritten(text, t, end, after);
  }

  lemma AfterFollows(text: Text, end: nat, after: Text)
    requires Blank(after) && StartsAt(text, end, after) && end + |after| == |text|
    ensures Follows(At(text, end)) && !IsBlank(At(text, end + |after|))
  {
    if after != [] {
      StartsEach(text, end, after, 0);
    }
  }

  /** No fault is found exactly in one JSON value, not too deep, without repeated names. */
  lemma ScanMeaning(text: Text, limit: nat)
    ensures Scan(text, limit).None? <==> IsSafeJson(text, limit)
  {
    if Scan(text, limit).None? {
      ScanSound(text, limit);
    }
    if IsSafeJson(text, limit) {
      var before: Text, value: Value, after: Text :|
        && Blank(before) && Blank(after) && GoodValue(value)
        && Within(value, 0, limit) && NamesDiffer(value)
        && text == before + (ValueText(value) + after);
      ScanComplete(text, limit, before, value, after);
    }
  }
}
