/**
 The hand-written JSON scanner (scanJsonSafety in packages/core/src/goal-plan-artifacts.ts:369-525):
 one pass over the text with a shared index, stopping at the first fault.
 */
module JsonScan {
  import opened Foundations
  import opened JsonText

  datatype Fault =
    | TooDeep | StringExpected | StringUnterminated | EscapeIncomplete | UnicodeMalformed | EscapeMalformed
    | ControlCharacter | KeyDuplicated | ColonMissing | ObjectSeparator | ObjectUnterminated
    | ArraySeparator | ArrayUnterminated | ValueMalformed | TrailingData

  datatype Read = Ok(end: nat) | Bad(fault: Fault)

  datatype ReadKey = Key(value: Text, end: nat) | BadKey(fault: Fault)

  function SkipBlank(text: Text, i: nat): (end: nat)
    requires i <= |text|
    ensures i <= end <= |text|
    ensures forall k :: i <= k < end ==> IsBlank(text[k])
    ensures !IsBlank(At(text, end))
    decreases |text| - i
  {
    if IsBlank(At(text, i)) then SkipBlank(text, i + 1) else i
  }

  function Prepend(unit: Unit, rest: ReadKey): ReadKey {
    match rest
    case Key(value, end) => Key([unit] + value, end)
    case BadKey(fault) => BadKey(fault)
  }

  /** The rest of a string after its opening quote, decoded. */
  function ReadChars(text: Text, i: nat): (r: ReadKey)
    requires i <= |text|
    ensures r.Key? ==> i < r.end <= |text|
    decreases |text| - i
  {
    if i == |text| then BadKey(StringUnterminated)
    else if text[i] == QUOTE then Key([], i + 1)
    else if text[i] == BACKSLASH then
      if i + 1 == |text| then BadKey(EscapeIncomplete)
      else if text[i + 1] == LOWER_U then
        if IsHex(At(text, i + 2)) && IsHex(At(text, i + 3)) && IsHex(At(text, i + 4)) && IsHex(At(text, i + 5))
        then Prepend(HexUnit(At(text, i + 2), At(text, i + 3), At(text, i + 4), At(text, i + 5)), ReadChars(text, i + 6))
        else BadKey(UnicodeMalformed)
      else if IsShort(text[i + 1]) then Prepend(ShortValue(text[i + 1]), ReadChars(text, i + 2))
      else BadKey(EscapeMalformed)
    else if text[i] < 0x20 then BadKey(ControlCharacter)
    else Prepend(text[i], ReadChars(text, i + 1))
  }

  function ReadString(text: Text, i: nat): (r: ReadKey)
    requires i <= |text|
    ensures r.Key? ==> i < r.end <= |text|
  {
    if At(text, i) != QUOTE then BadKey(StringExpected) else ReadChars(text, i + 1)
  }

  function DigitsEnd(text: Text, i: nat): (end: nat)
    requires i <= |text|
    ensures i <= end <= |text|
    ensures forall k :: i <= k < end ==> IsDigit(text[k])
    ensures !IsDigit(At(text, end))
    decreases |text| - i
  {
    if IsDigit(At(text, i)) then DigitsEnd(text, i + 1) else i
  }

  /** The end of the integer part; the start when there is none. */
  function WholeEnd(text: Text, i: nat): (end: nat)
    requires i <= |text|
    ensures i <= end <= |text|
  {
    if At(text, i) == 48 then i + 1
    else if IsDigit(At(text, i)) then DigitsEnd(text, i + 1)
    else i
  }

  function FractionEnd(text: Text, i: nat): (end: nat)
    requires i <= |text|
    ensures i <= end <= |text|
  {
    if At(text, i) == POINT && IsDigit(At(text, i + 1)) then DigitsEnd(text, i + 1) else i
  }

  function SignEnd(text: Text, i: nat): (end: nat)
    requires i <= |text|
    ensures i <= end <= |text|
  {
    if At(text, i) == PLUS || At(text, i) == MINUS then i + 1 else i
  }

  function ExponentEnd(text: Text, i: nat): (end: nat)
    requires i <= |text|
    ensures i <= end <= |text|
  {
    if At(text, i) == 101 || At(text, i) == 69 then
      var digits := SignEnd(text, i + 1);
      if IsDigit(At(text, digits)) then DigitsEnd(text, digits) else i
    else i
  }

  /** The longest match of the number pattern; the start when there is none. */
  function NumberEnd(text: Text, i: nat): (end: nat)
    requires i <= |text|
    ensures i <= end <= |text|
  {
    var whole := if At(text, i) == MINUS then i + 1 else i;
    var fraction := WholeEnd(text, whole);
    if fraction == whole then i else ExponentEnd(text, FractionEnd(text, fraction))
  }

  function ReadPlain(text: Text, i: nat): (r: Read)
    requires i <= |text|
    ensures r.Ok? ==> i < r.end <= |text|
  {
    if StartsAt(text, i, WordText(True)) then Ok(i + 4)
    else if StartsAt(text, i, WordText(False)) then Ok(i + 5)
    else if StartsAt(text, i, WordText(Null)) then Ok(i + 4)
    else if NumberEnd(text, i) > i then Ok(NumberEnd(text, i))
    else Bad(ValueMalformed)
  }

  // ---------------------------------------------------------------------
  // Values, over what is read at each position
  // ---------------------------------------------------------------------

  /** For each position: where blanks from there end, and what string, word or number starts there. */
  datatype Tokens = Tokens(skip: seq<nat>, strings: seq<ReadKey>, plains: seq<Read>)

  function TokensOf(text: Text): Tokens {
    Tokens(seq(|text| + 1, i requires 0 <= i <= |text| => SkipBlank(text, i)),
           seq(|text| + 1, i requires 0 <= i <= |text| => ReadString(text, i)),
           seq(|text| + 1, i requires 0 <= i <= |text| => ReadPlain(text, i)))
  }

  predicate Fits(t: Tokens, size: nat) {
    && |t.skip| == |t.strings| == |t.plains| == size + 1
    && (forall i :: 0 <= i <= size ==> i <= t.skip[i] <= size)
    && (forall i :: 0 <= i <= size && t.strings[i].Key? ==> i < t.strings[i].end <= size)
    && (forall i :: 0 <= i <= size && t.plains[i].Ok? ==> i < t.plains[i].end <= size)
  }

  /** Marks the positions at which the table is compared with the text. */
  predicate Look(i: int) {
    true
  }

  predicate Lexed(text: Text, t: Tokens) {
    && |t.skip| == |t.strings| == |t.plains| == |text| + 1
    && (forall i {:trigger Look(i)} :: 0 <= i <= |text| && Look(i) ==>
          t.skip[i] == SkipBlank(text, i) && t.strings[i] == ReadString(text, i) && t.plains[i] == ReadPlain(text, i))
  }

  lemma TextIsLexed(text: Text)
    ensures Lexed(text, TokensOf(text)) && Fits(TokensOf(text), |text|)
  {
  }

  /** A new member name and the colon behind it. */
  function ReadName(text: Text, t: Tokens, i: nat, keys: set<Text>): (r: ReadKey)
    requires i <= |text| && Fits(t, |text|)
    ensures r.Key? ==> i < r.end <= |text|
  {
    match t.strings[i]
    case BadKey(fault) => BadKey(fault)
    case Key(key, keyEnd) =>
      if key in keys then BadKey(KeyDuplicated)
      else if At(text, t.skip[keyEnd]) == COLON then Key(key, t.skip[keyEnd] + 1)
      else BadKey(ColonMissing)
  }

  function ReadValue(text: Text, t: Tokens, start: nat, depth: nat, limit: nat): (r: Read)
    requires start <= |text| && Fits(t, |text|)
    ensures r.Ok? ==> start < r.end <= |text|
    decreases |text| - start, 0
  {
    if depth > limit then Bad(TooDeep)
    else
      var i := t.skip[start];
      if At(text, i) == OPEN_BRACE then
        var first := t.skip[i + 1];
        if At(text, first) == CLOSE_BRACE then Ok(first + 1) else ReadMembers(text, t, first, depth, limit, {})
      else if At(text, i) == OPEN_BRACKET then
        var first := t.skip[i + 1];
        if At(text, first) == CLOSE_BRACKET then Ok(first + 1) else ReadElements(text, t, first, depth, limit)
      else if At(text, i) == QUOTE then
        match t.strings[i]
        case Key(_, end) => Ok(end)
        case BadKey(fault) => Bad(fault)
      else t.plains[i]
  }

  function ReadMembers(text: Text, t: Tokens, i: nat, depth: nat, limit: nat, keys: set<Text>): (r: Read)
    requires i <= |text| && Fits(t, |text|)
    ensures r.Ok? ==> i < r.end <= |text|
    decreases |text| - i, 0
  {
    if i == |text| then Bad(ObjectUnterminated)
    else
      match ReadName(text, t, i, keys)
      case BadKey(fault) => Bad(fault)
      case Key(key, start) =>
        match ReadValue(text, t, start, depth + 1, limit)
        case Bad(fault) => Bad(fault)
        case Ok(valueEnd) =>
          var end := t.skip[valueEnd];
          if At(text, end) == CLOSE_BRACE then Ok(end + 1)
          else if At(text, end) != COMMA then Bad(ObjectSeparator)
          else ReadMembers(text, t, t.skip[end + 1], depth, limit, keys + {key})
  }

  function ReadElements(text: Text, t: Tokens, i: nat, depth: nat, limit: nat): (r: Read)
    requires i <= |text| && Fits(t, |text|)
    ensures r.Ok? ==> i < r.end <= |text|
    decreases |text| - i, 1
  {
    if i == |text| then Bad(ArrayUnterminated)
    else
      match ReadValue(text, t, i, depth + 1, limit)
      case Bad(fault) => Bad(fault)
      case Ok(valueEnd) =>
        var end := t.skip[valueEnd];
        if At(text, end) == CLOSE_BRACKET then Ok(end + 1)
        else if At(text, end) != COMMA then Bad(ArraySeparator)
        else ReadElements(text, t, t.skip[end + 1], depth, limit)
  }

  function ScanWith(text: Text, t: Tokens, limit: nat): Option<Fault>
    requires Fits(t, |text|)
  {
    match ReadValue(text, t, t.skip[0], 0, limit)
    case Bad(fault) => Some(fault)
    case Ok(end) => if t.skip[end] != |text| then Some(TrailingData) else None
  }

  function Scan(text: Text, limit: nat): Option<Fault> {
    TextIsLexed(text);
    ScanWith(text, TokensOf(text), limit)
  }

  // ---------------------------------------------------------------------
  // The scanner
  // ---------------------------------------------------------------------

  datatype Turn = Again | Closed | Stopped

  class Scanner {
    const text: Text
    const limit: nat
    var index: nat
    var failure: Option<Fault>
    ghost const tokens: Tokens

    ghost predicate Going()
      reads this
    {
      index <= |text| && failure == None && Lexed(text, tokens) && Fits(tokens, |text|)
    }

    constructor (text: Text, limit: nat)
      ensures this.text == text && this.limit == limit && index == 0 && Going() && tokens == TokensOf(text)
    {
      this.text, this.limit, index, failure := text, limit, 0, None;
      tokens := TokensOf(text);
      TextIsLexed(text);
    }

    /** Only the first fault is kept. */
    method Fail(fault: Fault) returns (ok: bool)
      modifies this`failure
      ensures !ok && failure == if old(failure).None? then Some(fault) else old(failure)
    {
      if failure == None {
        failure := Some(fault);
      }
      ok := false;
    }

    method SkipWhitespace()
      requires Going()
      modifies this`index
      ensures Going() && index == tokens.skip[old(index)]
    {
      assert Look(index);
      while index < |text| && IsBlank(text[index])
        invariant index <= |text| && SkipBlank(text, index) == SkipBlank(text, old(index))
      {
        index := index + 1;
      }
    }

    ghost predicate Reads(expected: ReadKey, key: Option<Text>)
      reads this
    {
      match expected
      case Key(value, end) => key == Some(value) && index == end && Going()
      case BadKey(fault) => key == None && failure == Some(fault)
    }

    ghost predicate Passes(expected: Read, ok: bool)
      reads this
    {
      match expected
      case Ok(end) => ok && index == end && Going()
      case Bad(fault) => !ok && failure == Some(fault)
    }

    /** One escape after its backslash. */
    method ReadEscape() returns (unit: Option<Unit>)
      requires Going() && index < |text| && text[index] == BACKSLASH
      modifies this
      ensures unit.Some? ==> Going() && index > old(index)
      ensures unit.Some? ==> ReadChars(text, old(index)) == Prepend(unit.value, ReadChars(text, index))
      ensures unit.None? ==> failure.Some? && ReadChars(text, old(index)) == BadKey(failure.value)
    {
      unit := None;
      index := index + 1;
      if index >= |text| {
        var _ := Fail(EscapeIncomplete);
      } else if text[index] == LOWER_U {
        if IsHex(At(text, index + 1)) && IsHex(At(text, index + 2)) && IsHex(At(text, index + 3)) && IsHex(At(text, index + 4)) {
          unit := Some(HexUnit(At(text, index + 1), At(text, index + 2), At(text, index + 3), At(text, index + 4)));
          index := index + 5;
        } else {
          var _ := Fail(UnicodeMalformed);
        }
      } else if IsShort(text[index]) {
        unit := Some(ShortValue(text[index]));
        index := index + 1;
      } else {
        var _ := Fail(EscapeMalformed);
      }
    }

    method ReadKeyOrString() returns (key: Option<Text>)
      requires Going()
      modifies this
      ensures Reads(tokens.strings[old(index)], key)
    {
      assert Look(index);
      if At(text, index) != QUOTE {
        var _ := Fail(StringExpected);
        return None;
      }
      index := index + 1;
      var value: Text := [];
      ghost var goal := ReadChars(text, index);
      while index < |text|
        invariant Going() && goal == Extend(value, ReadChars(text, index))
        decreases |text| - index
      {
        var unit := text[index];
        if unit == QUOTE {
          index := index + 1;
          assert value + [] == value;
          return Some(value);
        }
        ghost var rest := index;
        if unit == BACKSLASH {
          var escaped := ReadEscape();
          if escaped == None {
            return None;
          }
          unit := escaped.value;
        } else if unit < 0x20 {
          var _ := Fail(ControlCharacter);
          return None;
        } else {
          index := index + 1;
        }
        ExtendOne(value, unit, ReadChars(text, index));
        value := value + [unit];
      }
      var _ := Fail(StringUnterminated);
      key := None;
    }

    method ReadNumberOrWord() returns (ok: bool)
      requires Going()
      modifies this
      ensures Passes(tokens.plains[old(index)], ok)
    {
      assert Look(index);
      if StartsAt(text, index, WordText(True)) {
        index := index + 4;
        return true;
      }
      if StartsAt(text, index, WordText(False)) {
        index := index + 5;
        return true;
      }
      if StartsAt(text, index, WordText(Null)) {
        index := index + 4;
        return true;
      }
      var end := NumberEnd(text, index);
      if end > index {
        index := end;
        return true;
      }
      ok := Fail(ValueMalformed);
    }

    /** A member name that is not in use yet, and the colon behind it. */
    method ReadMemberName(keys: set<Text>) returns (key: Option<Text>)
      requires Going()
      modifies this
      ensures Reads(ReadName(text, tokens, old(index), keys), key)
    {
      key := ReadKeyOrString();
      if key == None {
        return;
      }
      if key.value in keys {
        var _ := Fail(KeyDuplicated);
        return None;
      }
      SkipWhitespace();
      if At(text, index) != COLON {
        var _ := Fail(ColonMissing);
        return None;
      }
      index := index + 1;
    }

    /** What follows a value inside an object or an array. */
    method ReadSeparator(closing: Unit, missing: Fault) returns (next: Turn)
      requires Going()
      modifies this
      ensures var end := tokens.skip[old(index)];
        match next
        case Closed => Going() && At(text, end) == closing && index == end + 1
        case Again => Going() && At(text, end) != closing && At(text, end) == COMMA && index == tokens.skip[end + 1]
        case Stopped => failure == Some(missing) && At(text, end) != closing && At(text, end) != COMMA
    {
      SkipWhitespace();
      if At(text, index) == closing {
        index := index + 1;
        return Closed;
      }
      if At(text, index) != COMMA {
        var _ := Fail(missing);
        return Stopped;
      }
      index := index + 1;
      SkipWhitespace();
      next := Again;
    }

    method ReadObjectTail(depth: nat) returns (ok: bool)
      requires Going()
      modifies this
      ensures Passes(ReadMembers(text, tokens, old(index), depth, limit, {}), ok)
      decreases |text| - index, 0
    {
      var keys: set<Text> := {};
      ghost var goal := ReadMembers(text, tokens, index, depth, limit, {});
      while index < |text|
        invariant Going() && old(index) <= index
        invariant goal == ReadMembers(text, tokens, index, depth, limit, keys)
        decreases |text| - index
      {
        var key := ReadMemberName(keys);
        if key == None {
          return false;
        }
        ok := ReadAnyValue(depth + 1);
        if !ok {
          return;
        }
        var next := ReadSeparator(CLOSE_BRACE, ObjectSeparator);
        if next != Again {
          return next == Closed;
        }
        keys := keys + {key.value};
      }
      ok := Fail(ObjectUnterminated);
    }

    method ReadArrayTail(depth: nat) returns (ok: bool)
      requires Going()
      modifies this
      ensures Passes(ReadElements(text, tokens, old(index), depth, limit), ok)
      decreases |text| - index, 1
    {
      ghost var goal := ReadElements(text, tokens, index, depth, limit);
      while index < |text|
        invariant Going() && old(index) <= index
        invariant goal == ReadElements(text, tokens, index, depth, limit)
        decreases |text| - index
      {
        ok := ReadAnyValue(depth + 1);
        if !ok {
          return;
        }
        var next := ReadSeparator(CLOSE_BRACKET, ArraySeparator);
        if next != Again {
          return next == Closed;
        }
      }
      ok := Fail(ArrayUnterminated);
    }

    method ReadAnyValue(depth: nat) returns (ok: bool)
      requires Going()
      modifies this
      ensures Passes(ReadValue(text, tokens, old(index), depth, limit), ok)
      decreases |text| - index, 0
    {
      if depth > limit {
        ok := Fail(TooDeep);
        return;
      }
      SkipWhitespace();
      if At(text, index) == OPEN_BRACE {
        index := index + 1;
        SkipWhitespace();
        if At(text, index) == CLOSE_BRACE {
          index := index + 1;
          return true;
        }
        ok := ReadObjectTail(depth);
      } else if At(text, index) == OPEN_BRACKET {
        index := index + 1;
        SkipWhitespace();
        if At(text, index) == CLOSE_BRACKET {
          index := index + 1;
          return true;
        }
        ok := ReadArrayTail(depth);
      } else if At(text, index) == QUOTE {
        var key := ReadKeyOrString();
        ok := key.Some?;
      } else {
        ok := ReadNumberOrWord();
      }
    }
  }

  /** A key of which some units have already been read. */
  function Extend(value: Text, rest: ReadKey): ReadKey {
    match rest
    case Key(more, end) => Key(value + more, end)
    case BadKey(fault) => BadKey(fault)
  }

  lemma ExtendOne(value: Text, unit: Unit, rest: ReadKey)
    ensures Extend(value, Prepend(unit, rest)) == Extend(value + [unit], rest)
  {
    if rest.Key? {
      assert value + ([unit] + rest.value) == value + [unit] + rest.value;
    }
  }

  method ScanJsonSafety(text: Text, limit: nat) returns (failure: Option<Fault>)
    ensures failure == Scan(text, limit)
  {
    var scanner := new Scanner(text, limit);
    scanner.SkipWhitespace();
    var ok := scanner.ReadAnyValue(0);
    if !ok {
      return scanner.failure;
    }
    scanner.SkipWhitespace();
    failure := if scanner.index != |text| then Some(TrailingData) else scanner.failure;
  }
}
